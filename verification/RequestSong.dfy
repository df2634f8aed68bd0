/**
 * The song-request page (src/app/request-song/page.tsx): mapping iTunes
 * search results to songs, the search guard, building the inserted request,
 * the local upvote-and-re-rank step and the preview toggle, and the page's
 * state as the handlers change it. Backend reads and writes, and `fetch`,
 * are results passed in; `new Date().toISOString()` is a string parameter.
 */
module RequestSong {
  import opened Common
  import JsText
  import Uri
  import SearchSongsRoute

  /** One entry of an iTunes search response's `results`. */
  datatype ITunesTrack = ITunesTrack(
    trackId: int,
    trackName: string,
    artistName: string,
    collectionName: string,
    artworkUrl100: string,
    trackViewUrl: string,
    previewUrl: Option<string>)

  /** A parsed iTunes response: `results` may be missing from the JSON. */
  datatype ITunesResponse = ITunesResponse(results: Option<seq<ITunesTrack>>)

  /** A search result as the page shows it (`Song`). */
  datatype Song = Song(
    id: string,
    songTitle: string,
    artist: string,
    album: Option<string>,
    albumArt: Option<string>,
    songUrl: Option<string>,
    requesterName: string,
    createdAt: string,
    upvotes: int)

  /** A row of `song_requests` as read back for the ranking (`RankedSong`); `upvotes` may be null. */
  datatype RankedSong = RankedSong(
    id: string,
    songTitle: string,
    artist: string,
    album: Option<string>,
    albumArt: Option<string>,
    songUrl: Option<string>,
    requesterName: string,
    createdAt: string,
    upvotes: Option<int>)

  /** The record handed to the backend's insert. */
  datatype SongRequestInsert = SongRequestInsert(
    songTitle: string,
    artist: string,
    album: string,
    albumArt: string,
    songUrl: string,
    requesterName: string,
    upvotes: int,
    createdAt: string)

  const SmallArtwork: string := "100x100bb"
  const LargeArtwork: string := "300x300bb"

  // ---------------------------------------------------------------------------
  // Mapping search results
  // ---------------------------------------------------------------------------

  /**
   * `album_art`: a present artwork URL with its first `100x100bb` turned into
   * `300x300bb` (unchanged when there is none); an empty one gives no art.
   */
  function AlbumArt(artworkUrl100: string): (r: Option<string>)
    ensures r.None? <==> artworkUrl100 == ""
    ensures r.Some? && JsText.IndexOf(artworkUrl100, SmallArtwork).None? ==> r.value == artworkUrl100
    ensures r.Some? && JsText.IndexOf(artworkUrl100, SmallArtwork).Some? ==>
      var i := JsText.IndexOf(artworkUrl100, SmallArtwork).value;
      r.value == artworkUrl100[..i] + LargeArtwork + artworkUrl100[i + |SmallArtwork|..]
  {
    JsText.ReplaceLiteral(artworkUrl100, SmallArtwork, LargeArtwork);
    if artworkUrl100 != "" then Some(JsText.Replace(artworkUrl100, SmallArtwork, LargeArtwork))
    else None
  }

  /** `item.previewUrl || item.trackViewUrl`. */
  function SongUrl(t: ITunesTrack): (r: string)
    ensures t.previewUrl.Some? && t.previewUrl.value != "" ==> r == t.previewUrl.value
    ensures t.previewUrl.None? || t.previewUrl.value == "" ==> r == t.trackViewUrl
  {
    OrDefault(t.previewUrl, t.trackViewUrl)
  }

  /** One result as a `Song`: a fresh, unrequested, unvoted song whose id reads back as the track id. */
  function ToSong(t: ITunesTrack, now: string): (s: Song)
    ensures JsText.ParseInt(s.id) == Some(t.trackId)
    ensures s.songTitle == t.trackName && s.artist == t.artistName && s.album == Some(t.collectionName)
    ensures s.albumArt == AlbumArt(t.artworkUrl100) && s.songUrl == Some(SongUrl(t))
    ensures s.requesterName == "" && s.upvotes == 0 && s.createdAt == now
  {
    JsText.IntToStringRoundTrip(t.trackId);
    Song(JsText.IntToString(t.trackId), t.trackName, t.artistName, Some(t.collectionName),
         AlbumArt(t.artworkUrl100), Some(SongUrl(t)), "", now, 0)
  }

  /** `mapiTunesResultsToSongs`: one song per result, in order. */
  function MapResults(results: seq<ITunesTrack>, now: string): (r: seq<Song>)
    ensures |r| == |results|
    ensures forall i :: 0 <= i < |r| ==> JsText.ParseInt(r[i].id) == Some(results[i].trackId)
    ensures forall i :: 0 <= i < |r| ==> r[i].upvotes == 0 && r[i].requesterName == ""
    ensures forall i :: 0 <= i < |r| ==> r[i] == ToSong(results[i], now)
  {
    seq(|results|, i requires 0 <= i < |results| => ToSong(results[i], now))
  }

  /** Results with distinct track ids map to songs with distinct ids. */
  lemma MappedIdsDistinct(results: seq<ITunesTrack>, now: string)
    requires forall i, j :: 0 <= i < j < |results| ==> results[i].trackId != results[j].trackId
    ensures var songs := MapResults(results, now);
      forall i, j :: 0 <= i < j < |songs| ==> songs[i].id != songs[j].id
  {
    var songs := MapResults(results, now);
    forall i, j | 0 <= i < j < |songs|
      ensures songs[i].id != songs[j].id
    {
      assert JsText.ParseInt(songs[i].id) != JsText.ParseInt(songs[j].id);
    }
  }

  /**
   * The request `searchSongs` sends to the iTunes search API. It is the URL
   * the search route builds for the same term with its default media, entity
   * and limit, so the term cannot break out of its parameter here either.
   */
  function SearchUrl(query: string): (r: string)
    ensures r == SearchSongsRoute.UpstreamUrl(query, SearchSongsRoute.DefaultMedia,
                                              SearchSongsRoute.DefaultEntity, SearchSongsRoute.DefaultLimit)
  {
    var encoded := Uri.EncodeUriComponent(query);
    SameShape(encoded);
    "https://itunes.apple.com/search?term=" + encoded + "&media=music&entity=song&limit=5"
  }

  /** The page's URL template and the route's, with the route's defaults, agree around any encoded term. */
  lemma SameShape(encoded: string)
    ensures "https://itunes.apple.com/search?term=" + encoded + "&media=music&entity=song&limit=5"
         == SearchSongsRoute.SearchBase + encoded
            + SearchSongsRoute.QueryTail(SearchSongsRoute.DefaultMedia, SearchSongsRoute.DefaultEntity, SearchSongsRoute.DefaultLimit)
  {
    assert SearchSongsRoute.QueryTail(SearchSongsRoute.DefaultMedia, SearchSongsRoute.DefaultEntity, SearchSongsRoute.DefaultLimit)
        == "&media=music&entity=song&limit=5";
  }

  /** The results of a successful search response: sent, OK, JSON, with `results`. */
  function ResultsOf(response: FetchOutcome<ITunesResponse>): Option<seq<ITunesTrack>> {
    if response.Responded? && IsOk(response.status) && response.json.Some? then response.json.value.results
    else None
  }

  /** What `searchSongs` returns, and the URL it fetched (`None` when it fetched nothing). */
  datatype SearchOutcome = SearchOutcome(songs: seq<Song>, requested: Option<string>)

  /**
   * `searchSongs(query)`: a blank query (one whose `trim()` is empty, see
   * `JsText.Trim`) gives no songs and no request; any
   * other query is sent untrimmed, and a thrown request, a non-OK status, a
   * body that is not JSON or one without `results` all give no songs.
   */
  function SearchSongs(query: string, response: FetchOutcome<ITunesResponse>, now: string): (r: SearchOutcome)
    ensures r.requested.None? <==> JsText.IsBlank(query)
    ensures r.requested.None? ==> r.songs == []
    ensures r.requested.Some? ==> r.requested.value == SearchUrl(query)
    ensures r.songs != [] ==> ResultsOf(response).Some?
    ensures ResultsOf(response).Some? && !JsText.IsBlank(query) ==> r.songs == MapResults(ResultsOf(response).value, now)
  {
    if JsText.IsBlank(query) then SearchOutcome([], None)
    else
      var results := ResultsOf(response);
      SearchOutcome(if results.Some? then MapResults(results.value, now) else [], Some(SearchUrl(query)))
  }

  // ---------------------------------------------------------------------------
  // Building the inserted request
  // ---------------------------------------------------------------------------

  const Anonymous: string := "Anonymous"

  /**
   * The record `handleSubmit` inserts: the song's title and artist, `''` for
   * a missing album, art or URL, the requester's name or `Anonymous`, and no
   * votes.
   */
  function BuildInsert(song: Song, requesterName: string, now: string): (r: SongRequestInsert)
    ensures r.songTitle == song.songTitle && r.artist == song.artist
    ensures r.requesterName != "" && (requesterName != "" ==> r.requesterName == requesterName)
    ensures requesterName == "" ==> r.requesterName == Anonymous
    ensures song.album.Some? ==> r.album == song.album.value
    ensures song.album.None? ==> r.album == ""
    ensures song.albumArt.Some? ==> r.albumArt == song.albumArt.value
    ensures song.albumArt.None? ==> r.albumArt == ""
    ensures song.songUrl.Some? ==> r.songUrl == song.songUrl.value
    ensures song.songUrl.None? ==> r.songUrl == ""
    ensures r.upvotes == 0 && r.createdAt == now
  {
    SongRequestInsert(song.songTitle, song.artist, OrDefault(song.album, ""), OrDefault(song.albumArt, ""),
                      OrDefault(song.songUrl, ""), OrDefault(Some(requesterName), Anonymous), 0, now)
  }

  // ---------------------------------------------------------------------------
  // Upvote and re-rank
  // ---------------------------------------------------------------------------

  /** `song.upvotes || 0`. */
  function Votes(s: RankedSong): int {
    s.upvotes.GetOr(0)
  }

  /** The map step of the local update: the song with that id gains one vote, the others are untouched. */
  function AddVote(songs: seq<RankedSong>, id: string): (r: seq<RankedSong>)
    ensures |r| == |songs|
    ensures forall i :: 0 <= i < |r| ==> r[i].(upvotes := songs[i].upvotes) == songs[i]
    ensures forall i :: 0 <= i < |r| ==> Votes(r[i]) == Votes(songs[i]) + (if songs[i].id == id then 1 else 0)
    ensures forall i :: 0 <= i < |r| && songs[i].id != id ==> r[i] == songs[i]
  {
    seq(|songs|, i requires 0 <= i < |songs| =>
      if songs[i].id == id then songs[i].(upvotes := Some(Votes(songs[i]) + 1)) else songs[i])
  }

  /** Ordered by votes, most first. */
  predicate ByVotesDescending(s: seq<RankedSong>) {
    forall i, j :: 0 <= i < j < |s| ==> Votes(s[i]) >= Votes(s[j])
  }

  /** The songs with exactly `k` votes, in their order in `s`. */
  function WithVotes(s: seq<RankedSong>, k: int): (r: seq<RankedSong>)
    ensures |r| <= |s|
  {
    if s == [] then [] else (if Votes(s[0]) == k then [s[0]] else []) + WithVotes(s[1..], k)
  }

  /** Places `x` before the first song with no more votes than it has. */
  function InsertByVotes(x: RankedSong, t: seq<RankedSong>): (r: seq<RankedSong>)
    ensures |r| == |t| + 1
  {
    if t == [] || Votes(x) >= Votes(t[0]) then [x] + t
    else [t[0]] + InsertByVotes(x, t[1..])
  }

  lemma {:induction false} InsertPermutes(x: RankedSong, t: seq<RankedSong>)
    ensures multiset(InsertByVotes(x, t)) == multiset(t) + multiset{x}
  {
    if t != [] && Votes(x) < Votes(t[0]) {
      InsertPermutes(x, t[1..]);
      assert t == [t[0]] + t[1..];
    }
  }

  lemma {:induction false} InsertKeepsOrder(x: RankedSong, t: seq<RankedSong>)
    requires ByVotesDescending(t)
    ensures ByVotesDescending(InsertByVotes(x, t))
  {
    if t != [] && Votes(x) < Votes(t[0]) {
      var rest := InsertByVotes(x, t[1..]);
      InsertKeepsOrder(x, t[1..]);
      InsertPermutes(x, t[1..]);
      forall j | 0 <= j < |rest|
        ensures Votes(t[0]) >= Votes(rest[j])
      {
        assert rest[j] in multiset(t[1..]) + multiset{x};
        if rest[j] != x {
          assert rest[j] in t[1..];
        }
      }
    }
  }

  /** Selecting by votes distributes over concatenation. */
  lemma {:induction false} WithVotesConcat(a: seq<RankedSong>, b: seq<RankedSong>, k: int)
    ensures WithVotes(a + b, k) == WithVotes(a, k) + WithVotes(b, k)
  {
    if a == [] {
      assert a + b == b;
    } else {
      var head := if Votes(a[0]) == k then [a[0]] else [];
      assert (a + b)[0] == a[0] && (a + b)[1..] == a[1..] + b;
      WithVotesConcat(a[1..], b, k);
      assert WithVotes(a + b, k) == head + WithVotes(a[1..] + b, k);
      assert WithVotes(a, k) == head + WithVotes(a[1..], k);
    }
  }

  /** Inserting a song adds it to the songs with its vote count, ahead of those it ties with. */
  lemma {:induction false} InsertKeepsTies(x: RankedSong, t: seq<RankedSong>, k: int)
    ensures WithVotes(InsertByVotes(x, t), k) == (if Votes(x) == k then [x] else []) + WithVotes(t, k)
  {
    if t == [] || Votes(x) >= Votes(t[0]) {
      assert WithVotes([x], k) == if Votes(x) == k then [x] else [];
      assert InsertByVotes(x, t) == [x] + t;
      WithVotesConcat([x], t, k);
    } else {
      var rest := InsertByVotes(x, t[1..]);
      InsertKeepsTies(x, t[1..], k);
      assert InsertByVotes(x, t) == [t[0]] + rest;
      assert t == [t[0]] + t[1..];
      PassOverHigher(x, t[0], rest, t[1..], k);
    }
  }

  /**
   * The recursive step of `InsertKeepsTies`: when `x` passes a song `y` with
   * more votes, putting `y` in front of both sides keeps the selection equal.
   */
  lemma PassOverHigher(x: RankedSong, y: RankedSong, rest: seq<RankedSong>, u: seq<RankedSong>, k: int)
    requires Votes(x) < Votes(y)
    requires WithVotes(rest, k) == (if Votes(x) == k then [x] else []) + WithVotes(u, k)
    ensures WithVotes([y] + rest, k) == (if Votes(x) == k then [x] else []) + WithVotes([y] + u, k)
  {
    assert WithVotes([y], k) == if Votes(y) == k then [y] else [];
    WithVotesConcat([y], rest, k);
    WithVotesConcat([y], u, k);
  }

  /**
   * `Array.prototype.sort` with the comparator `(b.upvotes || 0) - (a.upvotes || 0)`,
   * which is stable: most votes first, songs with equal votes in their prior order.
   */
  function SortByVotes(s: seq<RankedSong>): (r: seq<RankedSong>)
    ensures multiset(r) == multiset(s) && |r| == |s|
    ensures ByVotesDescending(r)
    ensures forall k :: WithVotes(r, k) == WithVotes(s, k)
  {
    if s == [] then []
    else
      var sorted := SortByVotes(s[1..]);
      assert s == [s[0]] + s[1..];
      InsertPermutes(s[0], sorted);
      InsertKeepsOrder(s[0], sorted);
      assert forall k :: WithVotes(InsertByVotes(s[0], sorted), k) == WithVotes(s, k) by {
        forall k { InsertKeepsTies(s[0], sorted, k); }
      }
      InsertByVotes(s[0], sorted)
  }

  /**
   * The local state after an upvote of `id`: the same songs with one more
   * vote for `id`, re-ranked with the most votes first and ties in their
   * prior order.
   */
  function Rerank(songs: seq<RankedSong>, id: string): (r: seq<RankedSong>)
    ensures multiset(r) == multiset(AddVote(songs, id)) && |r| == |songs|
    ensures ByVotesDescending(r)
    ensures forall k :: WithVotes(r, k) == WithVotes(AddVote(songs, id), k)
  {
    SortByVotes(AddVote(songs, id))
  }

  // ---------------------------------------------------------------------------
  // The preview toggle
  // ---------------------------------------------------------------------------

  /** `togglePreview(url)`: pause the preview when it is the one playing, otherwise play it instead. */
  function TogglePreview(playing: Option<string>, url: string): (r: Option<string>)
    ensures r.None? <==> playing == Some(url)
    ensures r.Some? ==> r.value == url
  {
    if playing == Some(url) then None else Some(url)
  }

  /** Pressing the same preview twice returns to where it started when nothing else was playing. */
  lemma ToggleTwice(playing: Option<string>, url: string)
    requires playing.None? || playing == Some(url)
    ensures TogglePreview(TogglePreview(playing, url), url) == playing
  {
  }

  // ---------------------------------------------------------------------------
  // The page's state and its handlers
  // ---------------------------------------------------------------------------

  const ErrorNoSong: string := "Please select a song"
  const ErrorSubmit: string := "Failed to submit song request. Please try again."
  const ErrorLoad: string := "Failed to load songs. Please try again later."
  const ErrorUpvote: string := "Failed to upvote song. Please try again."

  /** The result of the single-row read of a song's votes; a null row fails like an error. */
  datatype VoteRead = VotesRead(upvotes: Option<int>) | ReadFailed

  class RequestSongPage {
    var searchQuery: string
    var searchResults: seq<Song>
    var selectedSong: Option<Song>
    var isSearching: bool
    var requesterName: string
    var isSubmitting: bool
    var isSuccess: bool
    var error: Option<string>
    var rankedSongs: seq<RankedSong>
    var isLoadingRankedSongs: bool
    var playingPreview: Option<string>
    var upvotingId: Option<string>

    constructor ()
      ensures searchQuery == "" && searchResults == [] && selectedSong == None && !isSearching && requesterName == ""
      ensures !isSubmitting && !isSuccess && error == None && rankedSongs == [] && !isLoadingRankedSongs
      ensures playingPreview == None && upvotingId == None
    {
      searchQuery := "";
      searchResults := [];
      selectedSong := None;
      isSearching := false;
      requesterName := "";
      isSubmitting := false;
      isSuccess := false;
      error := None;
      rankedSongs := [];
      isLoadingRankedSongs := false;
      playingPreview := None;
      upvotingId := None;
    }

    /**
     * `handleSongSelect`: the song becomes the selection and the search is
     * cleared. Emptying the query re-runs the search effect, which cancels a
     * pending search and, the query being blank, stops searching.
     */
    method SelectSong(song: Song)
      modifies this
      ensures selectedSong == Some(song) && searchQuery == "" && searchResults == [] && !isSearching
      ensures requesterName == old(requesterName) && error == old(error) && rankedSongs == old(rankedSongs)
      ensures isSubmitting == old(isSubmitting) && isSuccess == old(isSuccess)
      ensures playingPreview == old(playingPreview) && upvotingId == old(upvotingId)
      ensures isLoadingRankedSongs == old(isLoadingRankedSongs)
    {
      selectedSong := Some(song);
      searchQuery := "";
      searchResults := [];
      isSearching := false;
    }

    /**
     * Typing into the search box, and the search effect's synchronous part:
     * a blank query clears the results and stops searching at once; any
     * other query marks a search as pending until the debounce timer fires.
     */
    method QueryChanged(query: string)
      modifies this
      ensures searchQuery == query
      ensures JsText.IsBlank(query) ==> searchResults == [] && !isSearching
      ensures !JsText.IsBlank(query) ==> searchResults == old(searchResults) && isSearching
      ensures selectedSong == old(selectedSong) && requesterName == old(requesterName) && error == old(error)
      ensures rankedSongs == old(rankedSongs) && isLoadingRankedSongs == old(isLoadingRankedSongs)
      ensures isSubmitting == old(isSubmitting) && isSuccess == old(isSuccess)
      ensures playingPreview == old(playingPreview) && upvotingId == old(upvotingId)
    {
      searchQuery := query;
      if JsText.Trim(query) == "" {
        searchResults := [];
        isSearching := false;
      } else {
        isSearching := true;
      }
    }

    /**
     * The debounce timer firing for the query in the box (a change of query
     * cancels the earlier timer, so no other query is searched): the results
     * become what `searchSongs` returned, which is none when the search
     * failed, and searching ends. Returns the URL requested, if any.
     */
    method SearchSettled(response: FetchOutcome<ITunesResponse>, now: string) returns (requested: Option<string>)
      modifies this
      ensures searchResults == SearchSongs(searchQuery, response, now).songs
      ensures requested == SearchSongs(searchQuery, response, now).requested
      ensures !isSearching && searchQuery == old(searchQuery)
      ensures selectedSong == old(selectedSong) && requesterName == old(requesterName) && error == old(error)
      ensures rankedSongs == old(rankedSongs) && isLoadingRankedSongs == old(isLoadingRankedSongs)
      ensures isSubmitting == old(isSubmitting) && isSuccess == old(isSuccess)
      ensures playingPreview == old(playingPreview) && upvotingId == old(upvotingId)
    {
      var outcome := SearchSongs(searchQuery, response, now);
      searchResults := outcome.songs;
      isSearching := false;
      requested := outcome.requested;
    }

    /** Typing into the name field. */
    method EditRequesterName(name: string)
      modifies this
      ensures requesterName == name
      ensures selectedSong == old(selectedSong) && error == old(error) && isSearching == old(isSearching)
      ensures rankedSongs == old(rankedSongs) && isLoadingRankedSongs == old(isLoadingRankedSongs)
      ensures isSubmitting == old(isSubmitting) && isSuccess == old(isSuccess)
      ensures playingPreview == old(playingPreview) && upvotingId == old(upvotingId)
      ensures searchQuery == old(searchQuery) && searchResults == old(searchResults)
    {
      requesterName := name;
    }

    /** The button that removes the chosen song: nothing is selected afterwards. */
    method ClearSelection()
      modifies this
      ensures selectedSong == None
      ensures requesterName == old(requesterName) && error == old(error) && isSearching == old(isSearching)
      ensures rankedSongs == old(rankedSongs) && isLoadingRankedSongs == old(isLoadingRankedSongs)
      ensures isSubmitting == old(isSubmitting) && isSuccess == old(isSuccess)
      ensures playingPreview == old(playingPreview) && upvotingId == old(upvotingId)
      ensures searchQuery == old(searchQuery) && searchResults == old(searchResults)
    {
      selectedSong := None;
    }

    /** The success message going away, by its close button or its five-second timer. */
    method HideSuccess()
      modifies this
      ensures !isSuccess
      ensures selectedSong == old(selectedSong) && requesterName == old(requesterName) && error == old(error)
      ensures rankedSongs == old(rankedSongs) && isLoadingRankedSongs == old(isLoadingRankedSongs)
      ensures isSubmitting == old(isSubmitting) && isSearching == old(isSearching)
      ensures playingPreview == old(playingPreview) && upvotingId == old(upvotingId)
      ensures searchQuery == old(searchQuery) && searchResults == old(searchResults)
    {
      isSuccess := false;
    }

    /**
     * `fetchRankedSongs`: rows replace the ranking (none for `null`); a
     * failure keeps it and reports the load error. Loading ends either way.
     */
    method FetchRankedSongs(result: Query<seq<RankedSong>>)
      modifies this
      ensures !isLoadingRankedSongs
      ensures result.Rows? ==> rankedSongs == result.data.GetOr([]) && error == old(error)
      ensures result.Failed? ==> rankedSongs == old(rankedSongs) && error == Some(ErrorLoad)
      ensures selectedSong == old(selectedSong) && requesterName == old(requesterName)
      ensures isSubmitting == old(isSubmitting) && isSuccess == old(isSuccess)
      ensures playingPreview == old(playingPreview) && upvotingId == old(upvotingId)
      ensures searchQuery == old(searchQuery) && searchResults == old(searchResults) && isSearching == old(isSearching)
    {
      isLoadingRankedSongs := true;
      match result {
        case Rows(data) => rankedSongs := data.GetOr([]);
        case Failed => error := Some(ErrorLoad);
      }
      isLoadingRankedSongs := false;
    }

    /**
     * `handleSubmit`. Without a selected song it reports the error and
     * inserts nothing. Otherwise it inserts the built record; on success the
     * selection and name are cleared and success is shown, on failure the
     * error is reported and the form kept. Submitting ends either way.
     * Returns the record sent to the backend, if any.
     */
    method Submit(insert: Mutation, now: string) returns (sent: Option<SongRequestInsert>)
      modifies this
      ensures sent.None? <==> old(selectedSong).None?
      ensures sent.Some? ==> sent.value == BuildInsert(old(selectedSong).value, old(requesterName), now)
      ensures sent.None? ==> error == Some(ErrorNoSong) && selectedSong == old(selectedSong)
                             && requesterName == old(requesterName) && isSuccess == old(isSuccess)
                             && isSubmitting == old(isSubmitting)
      ensures sent.Some? && insert.Done? ==>
        selectedSong == None && requesterName == "" && isSuccess && error == None && !isSubmitting
      ensures sent.Some? && insert.Rejected? ==>
        selectedSong == old(selectedSong) && requesterName == old(requesterName) && isSuccess == old(isSuccess)
        && error == Some(ErrorSubmit) && !isSubmitting
      ensures rankedSongs == old(rankedSongs) && playingPreview == old(playingPreview) && upvotingId == old(upvotingId)
      ensures isLoadingRankedSongs == old(isLoadingRankedSongs)
      ensures searchQuery == old(searchQuery) && searchResults == old(searchResults) && isSearching == old(isSearching)
    {
      if selectedSong.None? {
        error := Some(ErrorNoSong);
        return None;
      }
      isSubmitting := true;
      error := None;
      sent := Some(BuildInsert(selectedSong.value, requesterName, now));
      if insert.Done? {
        selectedSong := None;
        requesterName := "";
        isSuccess := true;
      } else {
        error := Some(ErrorSubmit);
      }
      isSubmitting := false;
    }

    /** The play/pause button of a ranked song's preview. */
    method TogglePlaying(url: string)
      modifies this
      ensures playingPreview == TogglePreview(old(playingPreview), url)
      ensures selectedSong == old(selectedSong) && requesterName == old(requesterName) && error == old(error)
      ensures rankedSongs == old(rankedSongs) && upvotingId == old(upvotingId)
      ensures isSubmitting == old(isSubmitting) && isSuccess == old(isSuccess)
      ensures isLoadingRankedSongs == old(isLoadingRankedSongs)
      ensures searchQuery == old(searchQuery) && searchResults == old(searchResults) && isSearching == old(isSearching)
    {
      playingPreview := TogglePreview(playingPreview, url);
    }

    /**
     * `handleUpvote(id)`: reads the song's votes, writes them back plus one
     * (a null count as 0), then re-ranks the local list. A failed read skips
     * the write; a failed read or write keeps the list and reports the
     * upvote error. `upvotingId` is cleared in every case. Returns the vote
     * count written, if the write was attempted.
     */
    method Upvote(id: string, read: VoteRead, update: Mutation) returns (written: Option<int>)
      modifies this
      ensures written == (if read.VotesRead? then Some(read.upvotes.GetOr(0) + 1) else None)
      ensures read.VotesRead? && update.Done? ==> rankedSongs == Rerank(old(rankedSongs), id) && error == old(error)
      ensures !(read.VotesRead? && update.Done?) ==> rankedSongs == old(rankedSongs) && error == Some(ErrorUpvote)
      ensures upvotingId == None
      ensures selectedSong == old(selectedSong) && requesterName == old(requesterName)
      ensures isSubmitting == old(isSubmitting) && isSuccess == old(isSuccess) && playingPreview == old(playingPreview)
      ensures isLoadingRankedSongs == old(isLoadingRankedSongs)
      ensures searchQuery == old(searchQuery) && searchResults == old(searchResults) && isSearching == old(isSearching)
    {
      upvotingId := Some(id);
      written := None;
      if read.VotesRead? {
        written := Some(read.upvotes.GetOr(0) + 1);
        if update.Done? {
          rankedSongs := Rerank(rankedSongs, id);
        } else {
          error := Some(ErrorUpvote);
        }
      } else {
        error := Some(ErrorUpvote);
      }
      upvotingId := None;
    }
  }
}
