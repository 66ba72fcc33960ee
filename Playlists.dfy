/**
 * The POST /playlists handler (generatePlaylist) and the three upstream steps
 * it runs in order: get recommendations, create the playlist, add the tracks.
 * The replies of the three upstream calls are inputs; a run yields the calls
 * the handler issued, in order, and the response it produced.
 */
module Playlists {
  import opened GoStrings
  import opened Upstream

  const RecommendationsUrl := "https://api.spotify.com/v1/recommendations"
  const UsersUrl := "https://api.spotify.com/v1/users/"
  const TrackUriPrefix := "spotify:track:"

  const RecommendationsFailed := "Could not get recommendations"
  const CreateFailed := "Could not create playlist"
  const AddTracksFailed := "Could not add tracks to playlist"
  const Created := "Successfully created playlist"

  /** Go's `int` on a 64-bit platform; a JSON `limit` outside it does not bind. */
  newtype Int64 = x: int | -0x8000_0000_0000_0000 <= x < 0x8000_0000_0000_0000

  /** The JSON body of POST /playlists. */
  datatype GenerationInfo = GenerationInfo(
    user: string,
    name: string,
    description: string,
    tracks: string,   // comma-separated seed track ids
    artists: string,  // comma-separated seed artist ids
    limit: Int64)

  datatype CreatePlaylistRequest = CreatePlaylistRequest(name: string, description: string)
  datatype CreatePlaylistResponse = CreatePlaylistResponse(playlistId: string)
  datatype RecommendedTrack = RecommendedTrack(name: string, uri: string)
  datatype RecommendationsResponse = RecommendationsResponse(tracks: seq<RecommendedTrack>)
  datatype AddTracksRequest = AddTracksRequest(uris: seq<string>)

  /** One key and value added to a URL query, in the order they were added. */
  datatype Param = Param(key: string, value: string)

  /** An outbound call to the Spotify Web API, with the bearer token it carries. */
  datatype Call =
    | GetRecommendations(authorization: string, url: string, query: seq<Param>)
    | PostCreatePlaylist(authorization: string, url: string, createBody: CreatePlaylistRequest)
    | PostAddTracks(authorization: string, url: string, addBody: AddTracksRequest)

  /** What binding the request body (c.Bind) gives. */
  datatype Bind = BindFailed(reason: string) | Bound(info: GenerationInfo)

  datatype Payload = ErrorBody(error: string) | MessageBody(message: string)
  datatype Response = Returned(err: HandlerError) | Json(status: int, payload: Payload)

  /** The upstream's replies to the three calls, in the order the calls are made. */
  datatype Replies = Replies(
    recommendations: Reply<RecommendationsResponse>,
    create: Reply<CreatePlaylistResponse>,
    addTracks: Reply<()>)

  datatype Exchange = Exchange(calls: seq<Call>, response: Response)

  // ---------------------------------------------------------------------------
  // Recommendations

  /** The first value stored under `key` (url.Values.Get). */
  function Lookup(query: seq<Param>, key: string): Option<string>
  {
    if |query| == 0 then None
    else if query[0].key == key then Some(query[0].value)
    else Lookup(query[1..], key)
  }

  /**
   * The recommendations query: always `limit` and `seed_tracks`, and
   * `seed_artists` only when there are seed artists.
   */
  function RecommendationsQuery(info: GenerationInfo): (query: seq<Param>)
    ensures Lookup(query, "limit") == Some(Itoa(info.limit as int))
    ensures Lookup(query, "seed_tracks") == Some(info.tracks)
    ensures Lookup(query, "seed_artists") == if info.artists == "" then None else Some(info.artists)
    ensures |query| == if info.artists == "" then 2 else 3
    ensures forall i :: 0 <= i < |query| ==> query[i].key in {"limit", "seed_tracks", "seed_artists"}
  {
    var always := [Param("limit", Itoa(info.limit as int)), Param("seed_tracks", info.tracks)];
    assert always[1..][1..] == [];
    assert "seed_tracks" != "seed_artists" && "limit" != "seed_artists";
    if info.artists == "" then
      assert Lookup(always[1..], "seed_artists") == Lookup(always[1..][1..], "seed_artists");
      always
    else
      var query := always + [Param("seed_artists", info.artists)];
      assert query[1..][1..] == [Param("seed_artists", info.artists)];
      assert Lookup(query[1..], "seed_artists") == Lookup(query[1..][1..], "seed_artists");
      query
  }

  function RecommendationsCall(authorization: string, info: GenerationInfo): Call
  {
    GetRecommendations(authorization, RecommendationsUrl, RecommendationsQuery(info))
  }

  predicate RecommendationsAccepted(status: int) { status == StatusOK }

  /** The recommendations step succeeds only on 200 with a parsed body. */
  function ReadRecommendations(reply: Reply<RecommendationsResponse>): (r: Outcome<RecommendationsResponse>)
    ensures r.Ok? <==> reply.Replied? && reply.status == 200 && reply.body.Parsed?
    ensures r.Ok? ==> r.value == reply.body.value
    ensures reply.Replied? && reply.status != 200 ==>
      r == Fail(BadStatus(reply.status, "Bad status code from Spotify API, could not get recommendations"))
  {
    Receive(reply, RecommendationsAccepted, "Bad status code from Spotify API, could not get recommendations")
  }

  // ---------------------------------------------------------------------------
  // Playlist creation

  /** The user's playlists collection. */
  function PlaylistsUrl(user: string): string
  {
    UsersUrl + user + "/playlists"
  }

  /** The tracks of one of the user's playlists. */
  function PlaylistTracksUrl(user: string, playlistId: string): (url: string)
    ensures url == PlaylistsUrl(user) + "/" + playlistId + "/tracks"
  {
    UsersUrl + user + "/playlists/" + playlistId + "/tracks"
  }

  predicate CreateAccepted(status: int) { status == StatusOK || status == StatusCreated }

  /** Playlist creation succeeds on 200 or 201 with a parsed body, and on nothing else. */
  function ReadCreatePlaylist(reply: Reply<CreatePlaylistResponse>): (r: Outcome<CreatePlaylistResponse>)
    ensures r.Ok? <==> reply.Replied? && (reply.status == 200 || reply.status == 201) && reply.body.Parsed?
    ensures r.Ok? ==> r.value == reply.body.value
    ensures reply.Replied? && reply.status != 200 && reply.status != 201 ==>
      r == Fail(BadStatus(reply.status, "Bad status code from Spotify API, could not create playlist"))
  {
    Receive(reply, CreateAccepted, "Bad status code from Spotify API, could not create playlist")
  }

  // ---------------------------------------------------------------------------
  // Adding tracks

  /** Adding tracks succeeds only on 201; the response body is never read. */
  function AddTracksOutcome(reply: Reply<()>): (r: Outcome<()>)
    ensures r.Ok? <==> reply.Replied? && reply.status == 201
    ensures reply.Replied? && reply.status != 201 ==>
      r == Fail(BadStatus(reply.status, "Bad status code from Spotify API, could not add tracks"))
  {
    match reply
    case TransportFailed => Fail(TransportError)
    case Replied(status, _) =>
      if status == StatusCreated then Ok(())
      else Fail(BadStatus(status, "Bad status code from Spotify API, could not add tracks"))
  }

  function SeedUris(pieces: seq<string>): seq<string>
  {
    if |pieces| == 0 then [] else [TrackUriPrefix + pieces[0]] + SeedUris(pieces[1..])
  }

  function RecommendedUris(tracks: seq<RecommendedTrack>): seq<string>
  {
    if |tracks| == 0 then [] else [tracks[0].uri] + RecommendedUris(tracks[1..])
  }

  /** The URI list sent to the add-tracks call: seed tracks first, then recommendations. */
  function TrackUris(seedTracks: string, recommended: seq<RecommendedTrack>): seq<string>
  {
    SeedUris(Split(seedTracks, ',')) + RecommendedUris(recommended)
  }

  lemma {:induction false} SeedUrisAt(pieces: seq<string>)
    ensures |SeedUris(pieces)| == |pieces|
    ensures forall i :: 0 <= i < |pieces| ==> SeedUris(pieces)[i] == TrackUriPrefix + pieces[i]
  {
    if |pieces| > 0 {
      SeedUrisAt(pieces[1..]);
    }
  }

  lemma {:induction false} RecommendedUrisAt(tracks: seq<RecommendedTrack>)
    ensures |RecommendedUris(tracks)| == |tracks|
    ensures forall j :: 0 <= j < |tracks| ==> RecommendedUris(tracks)[j] == tracks[j].uri
  {
    if |tracks| > 0 {
      RecommendedUrisAt(tracks[1..]);
    }
  }

  /**
   * Every seed piece, prefixed, in split order, then every recommended URI in
   * response order: nothing is dropped, merged or reordered, and the length is
   * (commas in the seed string + 1) + number of recommendations.
   */
  lemma TrackUrisShape(seedTracks: string, recommended: seq<RecommendedTrack>)
    ensures |TrackUris(seedTracks, recommended)| == |Split(seedTracks, ',')| + |recommended|
    ensures |TrackUris(seedTracks, recommended)| == Count(seedTracks, ',') + 1 + |recommended|
    ensures forall i :: 0 <= i < |Split(seedTracks, ',')| ==>
      TrackUris(seedTracks, recommended)[i] == TrackUriPrefix + Split(seedTracks, ',')[i]
    ensures forall j :: 0 <= j < |recommended| ==>
      TrackUris(seedTracks, recommended)[|Split(seedTracks, ',')| + j] == recommended[j].uri
  {
    SeedUrisAt(Split(seedTracks, ','));
    RecommendedUrisAt(recommended);
    SplitCount(seedTracks, ',');
  }

  /** An empty seed string still contributes one bare "spotify:track:" entry. */
  lemma TrackUrisOfEmptySeeds(recommended: seq<RecommendedTrack>)
    ensures TrackUris("", recommended) == [TrackUriPrefix] + RecommendedUris(recommended)
  {
    assert Split("", ',') == [""];
    assert SeedUris([""]) == [TrackUriPrefix + ""] + SeedUris([]);
    assert TrackUriPrefix + "" == TrackUriPrefix;
  }

  /** The seed string can be read back from the URI list: strip the prefix and join on ','. */
  lemma SeedTracksRecoverable(seedTracks: string, recommended: seq<RecommendedTrack>)
    ensures Count(seedTracks, ',') + 1 <= |TrackUris(seedTracks, recommended)|
    ensures var uris := TrackUris(seedTracks, recommended);
      var n := Count(seedTracks, ',') + 1;
      forall i :: 0 <= i < n ==> |TrackUriPrefix| <= |uris[i]| && uris[i][..|TrackUriPrefix|] == TrackUriPrefix
    ensures var uris := TrackUris(seedTracks, recommended);
      var n := Count(seedTracks, ',') + 1;
      Join(seq(n, i requires 0 <= i < n => if |TrackUriPrefix| <= |uris[i]| then uris[i][|TrackUriPrefix|..] else ""), ',')
        == seedTracks
  {
    TrackUrisShape(seedTracks, recommended);
    JoinSplit(seedTracks, ',');
    var uris := TrackUris(seedTracks, recommended);
    var pieces := Split(seedTracks, ',');
    var n := Count(seedTracks, ',') + 1;
    var stripped := seq(n, i requires 0 <= i < n => if |TrackUriPrefix| <= |uris[i]| then uris[i][|TrackUriPrefix|..] else "");
    forall i | 0 <= i < n
      ensures stripped[i] == pieces[i]
    {
      assert uris[i] == TrackUriPrefix + pieces[i];
    }
    assert stripped == pieces;
  }

  /** Builds the add-tracks body by appending to the URI list, as the handler does. */
  method BuildAddTracksRequest(seedTracks: string, recommended: seq<RecommendedTrack>)
    returns (request: AddTracksRequest)
    ensures request.uris == TrackUris(seedTracks, recommended)
  {
    var uris: seq<string> := [];
    var givenTracks := Split(seedTracks, ',');
    for i := 0 to |givenTracks|
      invariant |uris| == i
      invariant forall k :: 0 <= k < i ==> uris[k] == TrackUriPrefix + givenTracks[k]
    {
      uris := uris + [TrackUriPrefix + givenTracks[i]];
    }
    for j := 0 to |recommended|
      invariant |uris| == |givenTracks| + j
      invariant forall k :: 0 <= k < |givenTracks| ==> uris[k] == TrackUriPrefix + givenTracks[k]
      invariant forall k :: 0 <= k < j ==> uris[|givenTracks| + k] == recommended[k].uri
    {
      uris := uris + [recommended[j].uri];
    }
    TrackUrisShape(seedTracks, recommended);
    var expected := TrackUris(seedTracks, recommended);
    forall k | 0 <= k < |uris|
      ensures uris[k] == expected[k]
    {
      if k >= |givenTracks| {
        assert uris[|givenTracks| + (k - |givenTracks|)] == recommended[k - |givenTracks|].uri;
      }
    }
    request := AddTracksRequest(uris);
  }

  // ---------------------------------------------------------------------------
  // The handler

  /**
   * generatePlaylist: the authorization check, the body binding, then the three
   * upstream steps; the first failure ends the run with its fixed response.
   */
  function Generate(authorization: string, bind: Bind, replies: Replies): (x: Exchange)
    ensures |x.calls| <= 3
    ensures |x.calls| > 0 ==> x.calls[0].GetRecommendations?
    ensures |x.calls| > 1 ==> x.calls[1].PostCreatePlaylist?
    ensures |x.calls| > 2 ==> x.calls[2].PostAddTracks?
    ensures forall i :: 0 <= i < |x.calls| ==> x.calls[i].authorization == authorization
    ensures x.response.Returned? <==> x.calls == []
    ensures authorization != "" && bind.Bound? ==>
      |x.calls| >= 1 && x.calls[0] == RecommendationsCall(authorization, bind.info)
  {
    if authorization == "" then Exchange([], Returned(NoAuthorization))
    else match bind
      case BindFailed(reason) => Exchange([], Returned(BindError(reason)))
      case Bound(info) =>
        var recommendationsCall := RecommendationsCall(authorization, info);
        match ReadRecommendations(replies.recommendations)
        case Fail(_) =>
          Exchange([recommendationsCall], Json(StatusBadRequest, ErrorBody(RecommendationsFailed)))
        case Ok(recommendations) =>
          var createCall := PostCreatePlaylist(authorization, PlaylistsUrl(info.user),
                                               CreatePlaylistRequest(info.name, info.description));
          match ReadCreatePlaylist(replies.create)
          case Fail(_) =>
            Exchange([recommendationsCall, createCall], Json(StatusBadRequest, ErrorBody(CreateFailed)))
          case Ok(created) =>
            var addCall := PostAddTracks(authorization, PlaylistTracksUrl(info.user, created.playlistId),
                                         AddTracksRequest(TrackUris(info.tracks, recommendations.tracks)));
            var calls := [recommendationsCall, createCall, addCall];
            match AddTracksOutcome(replies.addTracks)
            case Fail(_) => Exchange(calls, Json(StatusBadRequest, ErrorBody(AddTracksFailed)))
            case Ok(_) => Exchange(calls, Json(StatusOK, MessageBody(Created)))
  }

  /** The handler with its early returns and the appending loops. */
  method GeneratePlaylist(authorization: string, bind: Bind, replies: Replies) returns (x: Exchange)
    ensures x == Generate(authorization, bind, replies)
  {
    if authorization == "" {
      return Exchange([], Returned(NoAuthorization));
    }
    if bind.BindFailed? {
      return Exchange([], Returned(BindError(bind.reason)));
    }
    var info := bind.info;

    var calls := [RecommendationsCall(authorization, info)];
    var recommendations := ReadRecommendations(replies.recommendations);
    if recommendations.Fail? {
      return Exchange(calls, Json(StatusBadRequest, ErrorBody(RecommendationsFailed)));
    }

    var createRequest := CreatePlaylistRequest(info.name, info.description);
    calls := calls + [PostCreatePlaylist(authorization, PlaylistsUrl(info.user), createRequest)];
    var created := ReadCreatePlaylist(replies.create);
    if created.Fail? {
      return Exchange(calls, Json(StatusBadRequest, ErrorBody(CreateFailed)));
    }

    var addRequest := BuildAddTracksRequest(info.tracks, recommendations.value.tracks);
    calls := calls + [PostAddTracks(authorization, PlaylistTracksUrl(info.user, created.value.playlistId), addRequest)];
    var added := AddTracksOutcome(replies.addTracks);
    if added.Fail? {
      return Exchange(calls, Json(StatusBadRequest, ErrorBody(AddTracksFailed)));
    }
    return Exchange(calls, Json(StatusOK, MessageBody(Created)));
  }

  // ---------------------------------------------------------------------------
  // Properties of a run

  /** Without an Authorization header the handler returns an error and calls nothing. */
  lemma NoAuthorizationMakesNoCalls(bind: Bind, replies: Replies)
    ensures Generate("", bind, replies) == Exchange([], Returned(NoAuthorization))
  {
  }

  /** A failed recommendations step ends the run before playlist creation. */
  lemma RecommendationsFailureEndsRun(authorization: string, info: GenerationInfo, replies: Replies)
    requires authorization != ""
    requires ReadRecommendations(replies.recommendations).Fail?
    ensures Generate(authorization, Bound(info), replies) ==
      Exchange([RecommendationsCall(authorization, info)], Json(400, ErrorBody("Could not get recommendations")))
  {
  }

  /** A failed creation ends the run before tracks are added. */
  lemma CreateFailureEndsRun(authorization: string, info: GenerationInfo, replies: Replies)
    requires authorization != ""
    requires ReadRecommendations(replies.recommendations).Ok?
    requires ReadCreatePlaylist(replies.create).Fail?
    ensures var x := Generate(authorization, Bound(info), replies);
      |x.calls| == 2 && x.response == Json(400, ErrorBody("Could not create playlist"))
  {
  }

  /** A failed add-tracks step is reported; the created playlist is not removed. */
  lemma AddTracksFailureReported(authorization: string, info: GenerationInfo, replies: Replies)
    requires authorization != ""
    requires ReadRecommendations(replies.recommendations).Ok?
    requires ReadCreatePlaylist(replies.create).Ok?
    requires AddTracksOutcome(replies.addTracks).Fail?
    ensures var x := Generate(authorization, Bound(info), replies);
      |x.calls| == 3 && x.response == Json(400, ErrorBody("Could not add tracks to playlist"))
  {
  }

  /** The run reports success exactly when all three upstream steps succeed. */
  lemma SuccessIffAllStepsSucceed(authorization: string, bind: Bind, replies: Replies)
    ensures Generate(authorization, bind, replies).response == Json(200, MessageBody("Successfully created playlist"))
      <==>
      authorization != "" && bind.Bound? &&
      ReadRecommendations(replies.recommendations).Ok? &&
      ReadCreatePlaylist(replies.create).Ok? &&
      AddTracksOutcome(replies.addTracks).Ok?
  {
  }

  /**
   * Creation sends the request's name and description unchanged, and the
   * add-tracks call addresses the playlist id that creation returned.
   */
  lemma AddTracksTargetsCreatedPlaylist(authorization: string, info: GenerationInfo, replies: Replies)
    requires authorization != ""
    requires ReadRecommendations(replies.recommendations).Ok?
    requires ReadCreatePlaylist(replies.create).Ok?
    ensures var x := Generate(authorization, Bound(info), replies);
      var id := replies.create.body.value.playlistId;
      |x.calls| == 3 &&
      x.calls[1] == PostCreatePlaylist(authorization, PlaylistsUrl(info.user),
                                       CreatePlaylistRequest(info.name, info.description)) &&
      x.calls[2].url == x.calls[1].url + "/" + id + "/tracks"
  {
  }

  /**
   * The add-tracks body holds the seed pieces, prefixed and in split order,
   * followed by the recommended URIs in response order.
   */
  lemma AddTracksUriList(authorization: string, info: GenerationInfo, replies: Replies)
    requires authorization != ""
    requires ReadRecommendations(replies.recommendations).Ok?
    requires ReadCreatePlaylist(replies.create).Ok?
    ensures var x := Generate(authorization, Bound(info), replies);
      var recommended := replies.recommendations.body.value.tracks;
      var pieces := Split(info.tracks, ',');
      |x.calls| == 3 &&
      var uris := x.calls[2].addBody.uris;
      |uris| == |pieces| + |recommended| &&
      |uris| == Count(info.tracks, ',') + 1 + |recommended| &&
      (forall i :: 0 <= i < |pieces| ==> uris[i] == TrackUriPrefix + pieces[i]) &&
      (forall j :: 0 <= j < |recommended| ==> uris[|pieces| + j] == recommended[j].uri)
  {
    TrackUrisShape(info.tracks, replies.recommendations.body.value.tracks);
  }
}
