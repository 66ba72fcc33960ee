/**
 * The track-search handler (searchTracks): the authorization check, one call
 * to the search endpoint with the caller's query string passed through, and
 * the flattening of each search item into a Track.
 */
module Tracks {
  import opened Upstream

  const SearchUrl := "https://api.spotify.com/v1/search"

  datatype Artist = Artist(id: string)
  datatype Image = Image(url: string)
  datatype Album = Album(artists: seq<Artist>, images: seq<Image>)
  datatype SearchItem = SearchItem(album: Album, id: string, name: string)
  datatype SearchResponse = SearchResponse(items: seq<SearchItem>)

  /** The simplified track returned to the caller; image and artist are the first ones. */
  datatype Track = Track(name: string, imageUrl: string, trackId: string, artistId: string)
  datatype TracksResponse = TracksResponse(tracks: seq<Track>)

  /** The one outbound call: the raw query string is forwarded as it came. */
  datatype SearchCall = GetSearch(authorization: string, url: string, rawQuery: string)

  datatype Response = Returned(err: HandlerError) | Json(status: int, body: TracksResponse)
  datatype Exchange = Exchange(calls: seq<SearchCall>, response: Response)

  /** Index 0 of the images and of the album artists exists. */
  predicate Flattenable(item: SearchItem)
  {
    |item.album.images| >= 1 && |item.album.artists| >= 1
  }

  predicate AllFlattenable(items: seq<SearchItem>)
  {
    forall i :: 0 <= i < |items| ==> Flattenable(items[i])
  }

  function ToTrack(item: SearchItem): Track
    requires Flattenable(item)
  {
    Track(item.name, item.album.images[0].url, item.id, item.album.artists[0].id)
  }

  /** The tracks of the response, one per search item. */
  function Flatten(items: seq<SearchItem>): seq<Track>
    requires AllFlattenable(items)
  {
    if |items| == 0 then [] else [ToTrack(items[0])] + Flatten(items[1..])
  }

  /**
   * Flattening keeps count and order, and each track takes its name and id
   * from the item, its image from the album's first image and its artist
   * from the album's first artist.
   */
  lemma {:induction false} FlattenAt(items: seq<SearchItem>)
    requires AllFlattenable(items)
    ensures |Flatten(items)| == |items|
    ensures forall i :: 0 <= i < |items| ==>
      Flatten(items)[i].name == items[i].name &&
      Flatten(items)[i].trackId == items[i].id &&
      Flatten(items)[i].imageUrl == items[i].album.images[0].url &&
      Flatten(items)[i].artistId == items[i].album.artists[0].id
  {
    if |items| > 0 {
      FlattenAt(items[1..]);
      assert forall i :: 1 <= i < |items| ==> Flatten(items)[i] == Flatten(items[1..])[i - 1];
    }
  }

  /** The flattening loop: builds each Track field by field and appends it. */
  method FlattenSearch(items: seq<SearchItem>) returns (response: TracksResponse)
    requires AllFlattenable(items)
    ensures response.tracks == Flatten(items)
  {
    var tracks: seq<Track> := [];
    for i := 0 to |items|
      invariant |tracks| == i
      invariant forall k :: 0 <= k < i ==>
        tracks[k] == Track(items[k].name, items[k].album.images[0].url, items[k].id, items[k].album.artists[0].id)
    {
      var item := items[i];
      var track := Track("", "", "", "");
      track := track.(name := item.name);
      track := track.(imageUrl := item.album.images[0].url);
      track := track.(trackId := item.id);
      track := track.(artistId := item.album.artists[0].id);
      tracks := tracks + [track];
    }
    FlattenAt(items);
    response := TracksResponse(tracks);
  }

  predicate SearchAccepted(status: int) { status == StatusOK }

  /** The search step succeeds only on 200 with a parsed body. */
  function ReadSearch(reply: Reply<SearchResponse>): (r: Outcome<SearchResponse>)
    ensures r.Ok? <==> reply.Replied? && reply.status == 200 && reply.body.Parsed?
    ensures r.Ok? ==> r.value == reply.body.value
    ensures reply.Replied? && reply.status != 200 ==>
      r == Fail(BadStatus(reply.status, "Bad status code from Spotify API, could not get tracks"))
  {
    Receive(reply, SearchAccepted, "Bad status code from Spotify API, could not get tracks")
  }

  /** Every item of an accepted search reply can be flattened. */
  predicate FlattenableReply(reply: Reply<SearchResponse>)
  {
    ReadSearch(reply).Ok? ==> AllFlattenable(reply.body.value.items)
  }

  /** searchTracks as a function of the header, the query string and the upstream reply. */
  function Search(authorization: string, rawQuery: string, reply: Reply<SearchResponse>): (x: Exchange)
    requires FlattenableReply(reply)
    ensures x.calls == if authorization == "" then [] else [GetSearch(authorization, SearchUrl, rawQuery)]
    ensures x.response.Json? ==> x.response.status == 200
  {
    if authorization == "" then Exchange([], Returned(NoAuthorization))
    else
      var call := GetSearch(authorization, SearchUrl, rawQuery);
      match ReadSearch(reply)
      case Fail(e) => Exchange([call], Returned(StepFailed(e)))
      case Ok(found) => Exchange([call], Json(StatusOK, TracksResponse(Flatten(found.items))))
  }

  /** The handler with its early returns and the flattening loop. */
  method SearchTracks(authorization: string, rawQuery: string, reply: Reply<SearchResponse>)
    returns (x: Exchange)
    requires FlattenableReply(reply)
    ensures x == Search(authorization, rawQuery, reply)
  {
    if authorization == "" {
      return Exchange([], Returned(NoAuthorization));
    }
    var call := GetSearch(authorization, SearchUrl, rawQuery);
    var found := ReadSearch(reply);
    if found.Fail? {
      return Exchange([call], Returned(StepFailed(found.error)));
    }
    var tracksResponse := FlattenSearch(found.value.items);
    return Exchange([call], Json(StatusOK, tracksResponse));
  }

  /** Without an Authorization header the handler returns an error and calls nothing. */
  lemma NoAuthorizationMakesNoSearch(rawQuery: string, reply: Reply<SearchResponse>)
    requires FlattenableReply(reply)
    ensures Search("", rawQuery, reply) == Exchange([], Returned(NoAuthorization))
  {
  }

  /** A status other than 200 returns the bad-status error and no tracks. */
  lemma BadSearchStatusGivesNoTracks(authorization: string, rawQuery: string, reply: Reply<SearchResponse>)
    requires authorization != ""
    requires reply.Replied? && reply.status != 200
    ensures Search(authorization, rawQuery, reply) ==
      Exchange([GetSearch(authorization, SearchUrl, rawQuery)],
               Returned(StepFailed(BadStatus(reply.status, "Bad status code from Spotify API, could not get tracks"))))
  {
  }

  /**
   * The handler answers with tracks exactly when the header is present and the
   * search reply is a parsed 200; the answer has one track per item, in order.
   */
  lemma SearchAnswersWithTracks(authorization: string, rawQuery: string, reply: Reply<SearchResponse>)
    requires FlattenableReply(reply)
    ensures Search(authorization, rawQuery, reply).response.Json? <==>
      authorization != "" && reply.Replied? && reply.status == 200 && reply.body.Parsed?
    ensures var x := Search(authorization, rawQuery, reply);
      x.response.Json? ==>
        var items := reply.body.value.items;
        var tracks := x.response.body.tracks;
        x.response.status == 200 &&
        |tracks| == |items| &&
        forall i :: 0 <= i < |items| ==>
          tracks[i] == Track(items[i].name, items[i].album.images[0].url, items[i].id, items[i].album.artists[0].id)
  {
    if ReadSearch(reply).Ok? {
      FlattenAt(reply.body.value.items);
    }
  }
}
