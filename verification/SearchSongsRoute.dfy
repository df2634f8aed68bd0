/**
 * The music-search proxy (src/app/api/search-songs/route.ts): `GET` reads
 * `term`, `media`, `entity` and `limit` from the query string, defaults the
 * last three, refuses a missing term, asks the iTunes search API and passes
 * its JSON through. The upstream `fetch` is an oracle: its outcome is a
 * parameter, and the result records which URL, if any, was requested.
 * `J` stands for the upstream's JSON body, returned untouched.
 */
module SearchSongsRoute {
  import opened Common
  import Uri

  /** The request's query string, already split and decoded, in order. */
  type SearchParams = seq<(string, string)>

  /** `url.searchParams.get(key)`: the value of the first pair with that key, `null` when there is none. */
  function Param(params: SearchParams, key: string): (r: Option<string>)
    ensures r.None? ==> forall i :: 0 <= i < |params| ==> params[i].0 != key
    ensures r.Some? ==> exists i :: 0 <= i < |params| && params[i] == (key, r.value)
                          && forall j :: 0 <= j < i ==> params[j].0 != key
  {
    if params == [] then None
    else if params[0].0 == key then Some(params[0].1)
    else
      var r := Param(params[1..], key);
      assert r.Some? ==> exists i :: 0 <= i < |params[1..]| && params[1..][i] == (key, r.value)
                           && (forall j :: 0 <= j < i ==> params[1..][j].0 != key);
      assert r.Some? ==> exists i :: 1 <= i < |params| && params[i] == (key, r.value)
                           && (forall j :: 0 <= j < i ==> params[j].0 != key) by {
        if r.Some? {
          var i :| 0 <= i < |params[1..]| && params[1..][i] == (key, r.value)
                   && (forall j :: 0 <= j < i ==> params[1..][j].0 != key);
          assert params[i + 1] == (key, r.value);
          assert forall j :: 1 <= j < i + 1 ==> params[j].0 != key by {
            forall j | 1 <= j < i + 1 ensures params[j].0 != key {
              assert params[j] == params[1..][j - 1];
            }
          }
        }
      }
      r
  }

  const ErrorTermRequired: string := "Search term is required"
  const ErrorUpstream: string := "Failed to fetch from iTunes API"
  const DefaultMedia: string := "music"
  const DefaultEntity: string := "song"
  const DefaultLimit: string := "5"

  /** The fixed start of the upstream URL, up to the term. */
  const SearchBase: string := "https://itunes.apple.com/search?term="

  /** What follows the term: media, entity and limit, inserted as given, in that order. */
  function QueryTail(media: string, entity: string, limit: string): (r: string)
    ensures r != [] && r[0] == '&'
  {
    "&media=" + media + "&entity=" + entity + "&limit=" + limit
  }

  /** The upstream URL: the base, the percent-encoded term, then the other parameters. */
  function UpstreamUrl(term: string, media: string, entity: string, limit: string): (r: string)
    ensures SearchBase <= r
    ensures var tail := QueryTail(media, entity, limit); |tail| < |r| && r[|r| - |tail|..] == tail
  {
    var url := SearchBase + Uri.EncodeUriComponent(term) + QueryTail(media, entity, limit);
    assert url[..|SearchBase|] == SearchBase;
    url
  }

  /** With the other parameters fixed, the URL determines the term: distinct searches ask for distinct URLs. */
  lemma UpstreamUrlDeterminesTerm(term: string, other: string, media: string, entity: string, limit: string)
    ensures UpstreamUrl(term, media, entity, limit) == UpstreamUrl(other, media, entity, limit) ==> term == other
  {
    var tail := QueryTail(media, entity, limit);
    var enc := Uri.EncodeUriComponent(term);
    var encOther := Uri.EncodeUriComponent(other);
    if UpstreamUrl(term, media, entity, limit) == UpstreamUrl(other, media, entity, limit) {
      var url := SearchBase + enc + tail;
      assert url == SearchBase + encOther + tail;
      assert enc == url[|SearchBase|..|url| - |tail|];
      assert encOther == url[|SearchBase|..|url| - |tail|];
      Uri.EncodeInjective(term, other);
    }
  }

  /** Reading inside `p + m + q`: the indices past `p` read `m`, and the first one past `m` reads `q`. */
  lemma MiddleOfConcat(p: string, m: string, q: string)
    requires q != []
    ensures forall i :: |p| <= i < |p| + |m| ==> (p + m + q)[i] == m[i - |p|]
    ensures (p + m + q)[|p| + |m|] == q[0]
  {
  }

  /** The encoded term ends at the first `&` after `term=`: the term cannot add or override a parameter. */
  lemma TermCannotInjectParameters(term: string, media: string, entity: string, limit: string)
    ensures var url := UpstreamUrl(term, media, entity, limit);
      var start := |SearchBase|;
      var end := start + |Uri.EncodeUriComponent(term)|;
      && end < |url| && url[end] == '&'
      && forall i :: start <= i < end ==> url[i] != '&' && url[i] != '=' && url[i] != '#'
  {
    var enc := Uri.EncodeUriComponent(term);
    var tail := QueryTail(media, entity, limit);
    var url := UpstreamUrl(term, media, entity, limit);
    assert url == SearchBase + enc + tail;
    MiddleOfConcat(SearchBase, enc, tail);
    forall i | |SearchBase| <= i < |SearchBase| + |enc|
      ensures url[i] != '&' && url[i] != '=' && url[i] != '#'
    {
      assert Uri.IsEncodedChar(enc[i - |SearchBase|]);
    }
  }

  /** The JSON body of the route's response. */
  datatype Body<J> = ErrorBody(error: string) | Passthrough(data: J)

  /** The route's response, and the upstream URL it requested (`None` when it made no request). */
  datatype Handled<J> = Handled(status: int, body: Body<J>, requested: Option<string>)

  /**
   * `GET`. A missing or empty term gives 400 without any request; otherwise
   * the upstream is asked, an OK response's JSON is returned as it is with
   * status 200, and a non-OK status, a thrown request or a body that is not
   * JSON all give 500.
   */
  function Get<J>(params: SearchParams, upstream: FetchOutcome<J>): (r: Handled<J>)
    ensures r.requested.None? <==> OrDefault(Param(params, "term"), "") == ""
    ensures r.requested.None? ==> r.status == 400 && r.body == ErrorBody(ErrorTermRequired)
    ensures r.requested.Some? ==> r.requested.value == UpstreamUrl(Param(params, "term").value,
      OrDefault(Param(params, "media"), DefaultMedia),
      OrDefault(Param(params, "entity"), DefaultEntity),
      OrDefault(Param(params, "limit"), DefaultLimit))
    ensures r.status == 200 <==> r.requested.Some? && upstream.Responded? && IsOk(upstream.status) && upstream.json.Some?
    ensures r.status == 200 ==> r.body == Passthrough(upstream.json.value)
    ensures r.status == 400 <==> r.requested.None?
    ensures r.requested.Some? && r.status != 200 ==> r.status == 500 && r.body == ErrorBody(ErrorUpstream)
    ensures r.status in {200, 400, 500}
  {
    var term := Param(params, "term");
    var media := OrDefault(Param(params, "media"), DefaultMedia);
    var entity := OrDefault(Param(params, "entity"), DefaultEntity);
    var limit := OrDefault(Param(params, "limit"), DefaultLimit);
    if OrDefault(term, "") == "" then
      Handled(400, ErrorBody(ErrorTermRequired), None)
    else
      var url := UpstreamUrl(term.value, media, entity, limit);
      match upstream
      case Responded(status, Some(data)) =>
        if IsOk(status) then Handled(200, Passthrough(data), Some(url))
        else Handled(500, ErrorBody(ErrorUpstream), Some(url))
      case _ =>
        Handled(500, ErrorBody(ErrorUpstream), Some(url))
  }
}
