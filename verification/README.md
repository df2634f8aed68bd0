# UO2025 wedding app — a Dafny model of its client logic

UO2025 is a progressive web app for a wedding. Guests can:

- browse the programme;
- search the iTunes catalogue and request songs for the reception;
- upvote songs others requested;
- post to a "wall of love".

An admin page lists song requests and deletes them. Data lives in a hosted
Postgres backend (Supabase), and a small server route proxies the iTunes
search API.

This project models the logic of those pages, one Dafny module per source
file, and proves what each handler leaves behind:

| module | source file | models |
|---|---|---|
| `Common` | — | optional values, the outcomes of backend calls and of `fetch`, JavaScript `x \|\| d` on strings |
| `JsText` | — | `trim`, `indexOf`, `replace` with a string pattern (with its `$` patterns), `Number#toString`, as the pages use them |
| `Uri` | — | `encodeURIComponent`, and `decodeURIComponent` as its inverse |
| `SupabaseConfig` | `src/lib/supabase.ts` | normalising the backend URL; the missing-configuration check |
| `Navbar` | `src/app/components/Navbar.tsx` | which bottom-bar link is highlighted |
| `PostsContext` | `src/app/context/PostsContext.tsx` | the shared feed cache and `fetchPosts` (a class: its state changes in place) |
| `PostsLoadingControl` | `src/app/components/PostsLoadingControl.tsx` | when the feed is fetched or refreshed |
| `SearchSongsRoute` | `src/app/api/search-songs/route.ts` | the `GET` search proxy |
| `RequestSong` | `src/app/request-song/page.tsx` | mapping search results, the request record, upvote and re-rank, and the page's state (a class) |
| `RequestedSongs` | `src/app/requested-songs/page.tsx` | the admin list and its confirmed delete (a class) |
| `WallOfLove` | `src/app/wall-of-love/page.tsx` | the local demonstration feed and its form (a class) |

Modelling choices:

- **Page state is a class.** Each React page becomes a `class` whose fields
  are its `useState` variables. Its handlers are methods that state the
  whole new state.
- **Backend results are parameters.** A query, insert, update or delete is
  never called. Its result is passed in as a `Query` or `Mutation` value.
  The same goes for `fetch`, `Date.now()`, the date strings,
  `window.confirm` and the file picker.
- **Some handlers are split at their `await`.** `fetchPosts` and
  `handleDelete` each become a `Begin…`/`Finish…` pair plus the method that
  runs both. This is where a property concerns the state while the call is
  out: `loading` guarding `fetchPosts`, and `deletingId`.
- **Upvote sorting.** The re-rank after an upvote uses `Array.prototype.sort`.
  That sort is stable, so it is modelled as an insertion sort with three
  proved properties:
  - the result is a permutation of the input;
  - it is ordered by votes, most first;
  - songs with equal votes stay in their prior order.

## Model

| member | source | states |
|---|---|---|
| Common.OrDefault | src/app/api/search-songs/route.ts:7-9 | `s \|\| d` on a possibly missing string: a present non-empty value is kept; a missing or empty one gives the default |
| JsText.TrimStart | src/app/request-song/page.tsx:96 | the result is a suffix of the input, every dropped character is whitespace, and the result does not start with whitespace |
| JsText.TrimEnd | src/app/request-song/page.tsx:96 | the result is a prefix of the input, every dropped character is whitespace, and the result does not end with whitespace |
| JsText.Trim | src/app/request-song/page.tsx:141 | `trim()` is empty exactly when the string is all whitespace (what `!q.trim()` tests); otherwise it starts and ends with non-whitespace |
| JsText.IndexOf | src/app/request-song/page.tsx:127 | a found index is an occurrence and no earlier index is one; `None` means no occurrence anywhere |
| JsText.SubstitutionLiteral | src/app/request-song/page.tsx:127 | a replacement text without `$` is inserted as it is (`300x300bb` has none) |
| JsText.Replace | src/app/request-song/page.tsx:127 | `replace` with a string pattern changes only the first occurrence: the text before it and the text after it are kept; with no occurrence the string is unchanged |
| JsText.ReplaceLiteral | src/app/request-song/page.tsx:127 | `replace` with a string pattern and a `$`-free replacement puts the replacement in place of exactly the first occurrence; with none the string is unchanged |
| JsText.NatToDecimal | src/app/request-song/page.tsx:123 | a non-empty string of decimal digits with no leading zero |
| JsText.IntToString | src/app/request-song/page.tsx:123 | `toString()` of an integer is never empty |
| JsText.DecimalRoundTrip | src/app/request-song/page.tsx:123 | the digits of a natural number read back as that number |
| JsText.IntToStringRoundTrip | src/app/request-song/page.tsx:123 | `trackId.toString()` loses nothing: the string reads back as the id, so distinct ids give distinct strings |
| Uri.EncodeUriComponent | src/app/api/search-songs/route.ts:21 | the output contains only unreserved characters and `%`; it is never shorter than the input; a string of unreserved characters is returned as it is |
| Uri.HexDigit | src/app/api/search-songs/route.ts:21 | an escape digit is an upper-case hexadecimal digit that reads back as its value |
| Uri.Escape | src/app/api/search-songs/route.ts:21 | the escape of a byte is `%` and two upper-case hexadecimal digits that read back as the byte |
| Uri.UnescapeEncoded | src/app/api/search-songs/route.ts:21 | every `%` of an encoded term starts a well-formed escape: the term unescapes without error to its characters' pieces |
| Uri.Utf8WellFormed | src/app/api/search-songs/route.ts:21 | the bytes escaped for one character form one shortest UTF-8 sequence whose payload is that character |
| Uri.AssemblePieces | src/app/api/search-songs/route.ts:21 | the unescaped pieces of an encoded term decode back to the term |
| Uri.EncodeRoundTrip | src/app/api/search-songs/route.ts:21 | `decodeURIComponent(encodeURIComponent(term))` is the term: the encoding loses nothing |
| Uri.EncodeInjective | src/app/api/search-songs/route.ts:21 | distinct terms give distinct encodings, so distinct searches ask for distinct upstream URLs |
| SupabaseConfig.FormatUrl | src/lib/supabase.ts:13-15 | the URL always starts with `http`: kept when it already does, else `https://` is prefixed; a missing URL gives `https://undefined` |
| SupabaseConfig.FormatUrlIdempotent | src/lib/supabase.ts:13-15 | formatting a formatted URL changes nothing |
| SupabaseConfig.ClientUrl | src/lib/supabase.ts:17 | the `\|\| ''` fallback is never taken: the client URL is never empty |
| SupabaseConfig.ClientKey | src/lib/supabase.ts:17 | the key is passed through, `''` when missing |
| SupabaseConfig.ReportsMissingConfig | src/lib/supabase.ts:8-10 | the error is logged exactly when the URL or the key is missing or empty |
| Navbar.IsActive | src/app/components/Navbar.tsx:10-15 | Home and Request Song are active only on their exact path; Program on every path with the `/program` prefix; other arguments never |
| Navbar.ActiveLinks | src/app/components/Navbar.tsx:19-40 | the highlighted links are exactly those whose target `isActive` accepts |
| Navbar.AtMostOneActive | src/app/components/Navbar.tsx:10-15 | at most one link is highlighted on any path, and none on `/wall-of-love` |
| PostsContext.ReturnedPosts | src/app/context/PostsContext.tsx:45 | a successful query's rows, or none for `null` |
| PostsContext.PostsProvider.constructor | src/app/context/PostsContext.tsx:26-28 | no posts, not loading, never fetched |
| PostsContext.PostsProvider.SetPosts | src/app/context/PostsContext.tsx:26 | replaces the posts and nothing else |
| PostsContext.PostsProvider.BeginFetch | src/app/context/PostsContext.tsx:31-36 | a query is sent exactly when none is in flight, and `loading` holds afterwards |
| PostsContext.PostsProvider.FinishFetch | src/app/context/PostsContext.tsx:37-52 | rows replace the cache and stamp the time; an error keeps both; `loading` is lowered either way |
| PostsContext.PostsProvider.FetchPosts | src/app/context/PostsContext.tsx:31-53 | a call while loading changes nothing; otherwise the outcome of `FinishFetch` |
| PostsLoadingControl.ShouldFetch | src/app/components/PostsLoadingControl.tsx:18-42 | never fetches while loading or off the wall-of-love page; always fetches there when the cache is empty or was never filled; with posts cached it fetches exactly when the last fetch is over ten minutes old |
| PostsLoadingControl.SuccessfulFetchHoldsOff | src/app/components/PostsLoadingControl.tsx:24-34 | a fetch that returned posts holds the control off for the next ten minutes |
| PostsLoadingControl.EmptyFeedRefetchesAtOnce | src/app/components/PostsLoadingControl.tsx:34 | the control fires again at the very moment a fetch returned an empty feed |
| PostsLoadingControl.ShouldFetchThrottled | src/app/components/PostsLoadingControl.tsx:24-34 | the corrected rule: never within a minute of the last fetch; otherwise the same as the original |
| PostsLoadingControl.RunEffect | src/app/components/PostsLoadingControl.tsx:18-42 | one run of the effect with the corrected rule: the provider is queried exactly when `ShouldFetchThrottled` holds, never within a minute of the last fetch, and is left unchanged otherwise; fetched rows are stamped with the second clock reading, taken when the query returns |
| SearchSongsRoute.Param | src/app/api/search-songs/route.ts:6-9 | `searchParams.get`: the value of the first pair with that key, `null` when there is none |
| SearchSongsRoute.TermCannotInjectParameters | src/app/api/search-songs/route.ts:21 | the encoded term holds no `&`, `=` or `#` and ends at the next `&`, so a term cannot add or override a parameter |
| SearchSongsRoute.UpstreamUrl | src/app/api/search-songs/route.ts:21 | the URL starts with the iTunes search base and ends with media, entity and limit, inserted as given, in that order |
| SearchSongsRoute.UpstreamUrlDeterminesTerm | src/app/api/search-songs/route.ts:21 | with the other parameters fixed, distinct terms give distinct upstream URLs |
| SearchSongsRoute.Get | src/app/api/search-songs/route.ts:3-42 | the status is 400 exactly when the term is missing or empty, and then no request is made; otherwise the defaulted upstream URL is requested; OK JSON is passed through with 200; any other outcome of a made request gives 500 with the upstream error body |
| RequestSong.AlbumArt | src/app/request-song/page.tsx:127 | an empty artwork URL gives no art; otherwise the first `100x100bb` becomes `300x300bb`, and a URL without one is kept |
| RequestSong.SongUrl | src/app/request-song/page.tsx:128 | the preview URL when present and non-empty, else the track page |
| RequestSong.ToSong | src/app/request-song/page.tsx:122-132 | the song's id reads back as the track id; title, artist, album, art and URL come from the track; no requester, no votes |
| RequestSong.MapResults | src/app/request-song/page.tsx:121-133 | one song per result, in order: each is `ToSong` of its result, so it carries the result's id, fields and rewritten art, and no votes |
| RequestSong.MappedIdsDistinct | src/app/request-song/page.tsx:123 | distinct track ids give distinct song ids |
| RequestSong.SearchUrl | src/app/request-song/page.tsx:100-105 | the page's search URL is the one the search route builds for the same term with its default media, entity and limit |
| RequestSong.SearchSongs | src/app/request-song/page.tsx:95-119 | a request is made exactly when the query is not blank, with the untrimmed query encoded; a blank query gives no songs; songs come only from an OK JSON response with `results` |
| RequestSong.BuildInsert | src/app/request-song/page.tsx:202-211 | title and artist from the song; `''` for a missing album, art or URL; the name or `Anonymous`, never empty; no votes |
| RequestSong.AddVote | src/app/request-song/page.tsx:267-270 | every song with the id gains exactly one vote, a null count counting as 0; all else is untouched |
| RequestSong.InsertPermutes | src/app/request-song/page.tsx:271 | inserting by votes adds exactly the one song |
| RequestSong.InsertKeepsOrder | src/app/request-song/page.tsx:271 | inserting into a vote-ordered list keeps it ordered |
| RequestSong.InsertKeepsTies | src/app/request-song/page.tsx:271 | the inserted song goes before the songs with as many votes |
| RequestSong.SortByVotes | src/app/request-song/page.tsx:271 | the stable sort: a permutation, most votes first, ties in their prior order |
| RequestSong.Rerank | src/app/request-song/page.tsx:266-272 | after an upvote: the same songs with one more vote for the id, ranked by votes, ties kept in order |
| RequestSong.TogglePreview | src/app/request-song/page.tsx:237-245 | the playing preview stops exactly when it is the one pressed; otherwise the pressed one plays |
| RequestSong.ToggleTwice | src/app/request-song/page.tsx:237-245 | pressing a preview twice restores the state when nothing else was playing |
| RequestSong.RequestSongPage.constructor | src/app/request-song/page.tsx:47-60 | the initial state of every field |
| RequestSong.RequestSongPage.SelectSong | src/app/request-song/page.tsx:181-185 | the song is selected and the search is cleared; emptying the query re-runs the search effect (lines 136-145), so searching stops; nothing else changes |
| RequestSong.RequestSongPage.QueryChanged | src/app/request-song/page.tsx:136-147 | a blank query clears the results and stops searching; any other query leaves a search pending |
| RequestSong.RequestSongPage.SearchSettled | src/app/request-song/page.tsx:149-158 | the results and the requested URL are those of `SearchSongs` for the query in the box (no songs on failure), and searching ends |
| RequestSong.RequestSongPage.EditRequesterName | src/app/request-song/page.tsx:426 | sets the name only |
| RequestSong.RequestSongPage.ClearSelection | src/app/request-song/page.tsx:406 | clears the selection only |
| RequestSong.RequestSongPage.HideSuccess | src/app/request-song/page.tsx:224-226 | clears the success flag only |
| RequestSong.RequestSongPage.FetchRankedSongs | src/app/request-song/page.tsx:75-92 | rows replace the ranking; a failure keeps it and reports the load error; loading ends |
| RequestSong.RequestSongPage.Submit | src/app/request-song/page.tsx:187-234 | without a song: the error, and nothing sent; otherwise the built record is sent; success clears the form and shows success; failure keeps the form and reports |
| RequestSong.RequestSongPage.TogglePlaying | src/app/request-song/page.tsx:237-245 | only the playing preview changes, as `TogglePreview` says |
| RequestSong.RequestSongPage.Upvote | src/app/request-song/page.tsx:247-279 | the stored count plus one is written only after a successful read; the list is re-ranked only when both calls succeed, otherwise it is kept and the error is reported; `upvotingId` is cleared |
| RequestedSongs.WithoutId | src/app/requested-songs/page.tsx:68 | filtering never lengthens the list |
| RequestedSongs.WithoutIdCounts | src/app/requested-songs/page.tsx:68 | exactly the entries with that id go; every other entry keeps its multiplicity |
| RequestedSongs.WithoutIdDistributes | src/app/requested-songs/page.tsx:68 | the filter keeps order: it distributes over concatenation |
| RequestedSongs.WithoutIdAbsent | src/app/requested-songs/page.tsx:68 | a list without that id is unchanged |
| RequestedSongs.WithoutIdIdempotent | src/app/requested-songs/page.tsx:68 | deleting the same id twice is deleting it once |
| RequestedSongs.DeleteErrorMessage | src/app/requested-songs/page.tsx:75-76 | the error's message, or `Unknown error` when it has none, inside the fixed sentence |
| RequestedSongs.RequestedSongsPage.constructor | src/app/requested-songs/page.tsx:20-23 | empty list, loading, no error, nothing being deleted |
| RequestedSongs.RequestedSongsPage.FetchSongRequests | src/app/requested-songs/page.tsx:29-45 | rows replace the list; a failure keeps it and reports; loading ends |
| RequestedSongs.RequestedSongsPage.BeginDelete | src/app/requested-songs/page.tsx:47-55 | a declined confirmation changes nothing and calls nothing; otherwise the id is marked as being deleted |
| RequestedSongs.RequestedSongsPage.FinishDelete | src/app/requested-songs/page.tsx:56-79 | the list loses the id only on success, which also clears the error; a failure keeps the list and reports; the mark is cleared |
| RequestedSongs.RequestedSongsPage.HandleDelete | src/app/requested-songs/page.tsx:47-80 | the two steps together: the delete is called exactly when confirmed |
| WallOfLove.NumberedIdsAreOneToN | src/app/wall-of-love/page.tsx:71 | under the page's numbering the ids are exactly 1 to n, pairwise distinct |
| WallOfLove.NewPost | src/app/wall-of-love/page.tsx:70-80 | the new post has id count + 1, the form's author and message, the given date, and the preview as image when there is one |
| WallOfLove.WallOfLovePage.constructor | src/app/wall-of-love/page.tsx:17-47 | the three sample posts, an empty form, no preview; numbering holds |
| WallOfLove.WallOfLovePage.EditDraft | src/app/wall-of-love/page.tsx:136-150 | only the form's author and message change |
| WallOfLove.WallOfLovePage.ImageChange | src/app/wall-of-love/page.tsx:49-54 | a chosen file becomes the form's image; no file changes nothing |
| WallOfLove.WallOfLovePage.PreviewLoaded | src/app/wall-of-love/page.tsx:57-59 | the loaded data URL becomes the preview |
| WallOfLove.WallOfLovePage.Submit | src/app/wall-of-love/page.tsx:64-91 | the new post goes first and the old posts follow unchanged; the form and preview are reset; the numbering, hence id uniqueness, is preserved |

## Left out

- **Network and backend calls.** The backend client, `fetch` and their
  errors are not executed. Their results are parameters. Creating the
  client (`createClient`) is a foreign call.
- **Clocks and dates.** `Date.now()`, `new Date().toISOString()` and
  `toLocaleDateString` are parameters: a number or a string.
  `RequestSong.MapResults` stamps every song with one `now`, while the page
  reads the clock once per result (src/app/request-song/page.tsx:130), so
  its timestamps may differ by a few milliseconds. Nothing proved depends
  on them: `BuildInsert` takes its own date.
- **React scheduling.** Effect re-runs, stale closures and batched state
  updates are not modelled. Each handler is a method applied to the state
  it sees; a run of the load-control effect is one call of
  `PostsLoadingControl.RunEffect`. After a successful submission, the page
  refetches the ranking (src/app/request-song/page.tsx:68-72). This is the
  caller running `Submit` and then `FetchRankedSongs`; it is not a method
  of its own.
- **Timers.** The 300 ms search debounce and its cancellation are modelled
  only through their outcome: `QueryChanged`, then `SearchSettled` for the
  query in the box. The five-second success timer is `HideSuccess`.
- **Browser APIs.** Closing the results on an outside click, `FileReader`,
  the audio element and `window.confirm` are not modelled beyond their
  results.
- **Other pages.** The programme page, the home page, the install prompt,
  the layout, the offline page and the logo are not part of this model.
  - The programme page reads `?event=` with `Number(... || '0')` and
    indexes its four-entry event tables with the result, unchecked
    (src/app/program/page.tsx:10, 200-201). `Number` of arbitrary text is a
    floating-point conversion (`NaN`, `1.5`, `1e0`), and the index only
    selects what is rendered. An index outside 0-3 leaves `selectedEvent`
    undefined, so rendering its title throws.
  - The install prompt and the home page detect standalone display mode and
    keep the browser's install-prompt event
    (src/app/components/InstallApp.tsx:17-65, src/app/page.tsx:15-21). These
    are the user agent, `matchMedia` and the install-prompt event: browser
    platform APIs.
- **Request parsing.** `new URL(request.url)` splitting and decoding the
  query string is not modelled. `SearchSongsRoute.Get` receives the decoded
  pairs.
- **Image uploads.** The wall-of-love page in this source uploads nothing.
  Its posts live only in page state, so there is no upload pipeline to
  model.
- Uri.EncodeUriComponent: lone surrogate code units, on which
  `encodeURIComponent` throws `URIError`, cannot occur. Dafny's `char` is a
  Unicode scalar value.
- RequestSong.AddVote: `upvotes || 0` also maps `NaN` to 0. Counts are
  modelled as integers, so there is no `NaN`.
- RequestSong.ToSong: `trackId` is modelled as an integer. `toString` of a
  non-integral or very large JavaScript number (exponent notation) is not
  modelled.
- Uri.PercentEscapes: its own contract states only the length and the
  alphabet. That every third character starts an escape of the next byte
  is proved by `Uri.UnescapeEncoded`.
- Uri.DecodeUriComponent: a decoded character past U+FFFF is one scalar
  value here; JavaScript stores it as a surrogate pair. Strings are
  sequences of scalar values throughout this model.
- JsText.Replace: only string patterns are modelled. A regular-expression
  pattern, with capture groups and `$n`, is not used by the code modelled here.

## Findings

| source | as written | input that shows it | evidently intended | confidence | as-written member | corrected member |
|---|---|---|---|---|---|---|
| src/app/components/PostsLoadingControl.tsx:34 | `posts.length === 0` fetches regardless of the one-minute minimum interval; the effect re-runs whenever `loading` returns to false | on `/wall-of-love`, a fetch succeeds at time t with no rows; at time t (and on every later run) the rule fires again, so an empty feed is refetched back to back | at most one fetch per minute, empty feed or not | medium, not executed | PostsLoadingControl.EmptyFeedRefetchesAtOnce | PostsLoadingControl.ShouldFetchThrottled |

`PostsLoadingControl.RunEffect` uses the corrected rule. The corrected rule still fetches at once when no fetch has ever succeeded,
because `lastFetched` stays null. So a backend that keeps failing is still
retried on every run.
