# Spotify playlist generator: a Dafny model of its request handlers

The Go backend relays requests to the Spotify Web API through two handlers:

- `POST /playlists` (`generatePlaylist`) checks the `Authorization` header and binds the
  JSON body. It then makes three upstream calls in order: it gets recommendations, creates a
  playlist, and adds tracks to it. The tracks added are the seed tracks, written as
  `spotify:track:<id>`, followed by the recommended URIs. The first failing step ends the
  run with a fixed 400 response.
- `searchTracks` checks the `Authorization` header and forwards the query string to the
  search endpoint. No route uses this handler: server/server.go registers only
  `GET /status` and `POST /playlists`. It flattens every search item into a `Track`
  made of its name, its id, its album's first image URL and its album's first artist id.

The model is pure data plus the handlers' loops:

- `GoStrings` holds `strings.Split`, `strings.Join` and `strings.Count` for a one-character
  separator, and `strconv.Itoa` with an inverse parser.
- `Upstream` holds the abstract reply of one upstream call: a transport failure, or a
  status with a body that is unreadable, malformed or parsed. It also holds the errors a
  step returns, and the check order shared by the three steps that read a body
  (recommendations, playlist creation, search): transport, status, read, parse. The
  add-tracks step checks only transport and status and never reads the body.
- `Playlists` models `server/playlists.go`. Its query-building and status-check steps are
  functions. `Generate` is the handler as a function. `GeneratePlaylist` is the handler as
  a method, with its early returns and the two appending loops (`BuildAddTracksRequest`),
  and it is proved equal to `Generate`.
- `Tracks` models `server/tracks.go` the same way: `Search` is the function and
  `SearchTracks` the method, with the flattening loop in `FlattenSearch`.

The upstream replies are inputs to a run. A run returns the list of outbound calls it
issued, each with its bearer token, URL and body or query, and the handler's response.
Each call is determined by the request and the earlier replies: the add-tracks URL takes
the playlist id from the create reply, and its body takes the URIs from the
recommendations reply. So quantifying over all replies covers every possible upstream
behaviour. A handler that returns a Go error (missing header, failed bind, any failed
search step) gives `Returned(...)`. A handler that writes JSON
gives `Json(status, payload)`.

What the code does not do:

- The code does not truncate seed artists to a budget of five seeds.
- The code sends no `target_*` parameters.
- The code has no 401 "Unauthorized" classification. `ErrSpotifyUnauthorized` is declared
  but never used, and every upstream failure in `generatePlaylist` becomes a 400 response
  with a per-step message.
- A missing `Authorization` header is returned as a Go error. It is not a 401 JSON
  response.

## Model

| member | source | states |
|---|---|---|
| GoStrings.Split | server/playlists.go:86 | strings.Split on one separator always yields at least one piece |
| GoStrings.SplitCount | server/playlists.go:86 | the number of pieces is the number of separators plus one, so "" splits into [""] |
| GoStrings.SplitPiecesHaveNoSeparator | server/playlists.go:86 | no piece contains the separator |
| GoStrings.JoinSplit | server/playlists.go:86 | joining the pieces with the separator gives back the original string |
| GoStrings.SplitJoin | server/playlists.go:86 | splitting a join of separator-free pieces gives back those pieces, so Split is the unique such decomposition |
| GoStrings.NatDigits | server/playlists.go:153 | decimal digits, non-empty, with no leading zero except for 0 itself |
| GoStrings.Itoa | server/playlists.go:153 | the decimal form is non-empty and starts with '-' exactly for negative numbers |
| GoStrings.ItoaRoundTrip | server/playlists.go:153 | parsing the decimal form of n gives back n |
| GoStrings.ItoaInjective | server/playlists.go:153 | distinct limits give distinct `limit` values |
| Upstream.Receive | server/playlists.go:160-183 | a step fails with a transport error, then a bad status with the step's message, then a read error, then an unmarshal error, and succeeds only with the parsed body of an accepted status |
| Playlists.RecommendationsQuery | server/playlists.go:152-157 | `limit` is the decimal of Limit and `seed_tracks` is Tracks; `seed_artists` is present, equal to Artists, exactly when Artists is non-empty; no other keys |
| Playlists.ReadRecommendations | server/playlists.go:160-183 | succeeds iff the reply is status 200 with a parsed body, and returns that body; any other status gives the bad-status error |
| Playlists.ReadCreatePlaylist | server/playlists.go:117-140 | succeeds iff the status is 200 or 201 and the body parses; any other status gives the bad-status error |
| Playlists.AddTracksOutcome | server/playlists.go:202-215 | succeeds iff the status is 201, whatever the body; any other status gives the bad-status error |
| Playlists.PlaylistTracksUrl | server/playlists.go:192 | the add-tracks URL is the create URL of line 107 followed by "/", the playlist id and "/tracks" |
| Playlists.SeedUrisAt | server/playlists.go:86-89 | one URI per seed piece, in order, each the piece with the "spotify:track:" prefix |
| Playlists.RecommendedUrisAt | server/playlists.go:90-92 | one URI per recommended track, in response order, each that track's URI |
| Playlists.TrackUrisShape | server/playlists.go:85-92 | the list is the prefixed seed pieces in split order, then the recommended URIs in order; its length is commas + 1 + number of recommendations |
| Playlists.TrackUrisOfEmptySeeds | server/playlists.go:86-89 | an empty seed string still adds one bare "spotify:track:" entry before the recommendations |
| Playlists.SeedTracksRecoverable | server/playlists.go:86-89 | stripping the prefix from the first commas + 1 URIs and joining them with ',' gives back the seed string: nothing is lost or reordered |
| Playlists.BuildAddTracksRequest | server/playlists.go:85-92 | the two appending loops build exactly the URI list TrackUris describes |
| Playlists.Generate | server/playlists.go:47-99 | at most three calls, in the order recommendations, create, add-tracks; each carries the caller's Authorization header; with a header and a bound body the first call is the recommendations GET with RecommendationsQuery of the request; a Go error is returned exactly when no call was made |
| Playlists.GeneratePlaylist | server/playlists.go:47-99 | the handler with early returns computes the calls and the response Generate describes |
| Playlists.NoAuthorizationMakesNoCalls | server/playlists.go:49-54 | an empty Authorization header returns the error before any upstream call |
| Playlists.RecommendationsFailureEndsRun | server/playlists.go:69-72 | a failed recommendations step means only that call was made, and the response is 400 "Could not get recommendations" |
| Playlists.CreateFailureEndsRun | server/playlists.go:79-82 | a failed creation means add-tracks is not called, and the response is 400 "Could not create playlist" |
| Playlists.AddTracksFailureReported | server/playlists.go:94-96 | a failed add-tracks step gives 400 "Could not add tracks to playlist" after all three calls |
| Playlists.SuccessIffAllStepsSucceed | server/playlists.go:94-98 | the response is 200 "Successfully created playlist" iff the header is set, the body binds, and all three steps succeed |
| Playlists.AddTracksTargetsCreatedPlaylist | server/playlists.go:75-94 | creation sends Name and Description unchanged; add-tracks addresses the playlist id that creation returned |
| Playlists.AddTracksUriList | server/playlists.go:85-94 | the add-tracks body is the prefixed seed pieces followed by the recommended URIs, with length commas + 1 + number of recommendations |
| Tracks.FlattenAt | server/tracks.go:85-93 | one track per item, in order, with Name = item name, TrackId = item id, ImageUrl = first image URL, ArtistId = first album-artist id |
| Tracks.FlattenSearch | server/tracks.go:85-93 | the loop that builds each Track field by field computes exactly Flatten of the items |
| Tracks.ReadSearch | server/tracks.go:60-82 | the search step succeeds iff the status is 200 and the body parses; any other status gives the bad-status error |
| Tracks.Search | server/tracks.go:42-96 | no call without a header, otherwise exactly one call to the search endpoint carrying the header and the raw query string; JSON answers are 200 |
| Tracks.SearchTracks | server/tracks.go:42-96 | the handler with early returns and the flattening loop computes what Search describes |
| Tracks.NoAuthorizationMakesNoSearch | server/tracks.go:44-49 | an empty Authorization header returns the error before any upstream call |
| Tracks.BadSearchStatusGivesNoTracks | server/tracks.go:66-71 | a status other than 200 returns the bad-status error and no tracks |
| Tracks.SearchAnswersWithTracks | server/tracks.go:84-95 | the handler answers with tracks iff the header is set and the reply is a parsed 200; the tracks match the items one for one, in order |

## Left out

- HTTP itself is not modelled: `http.Client`, `client.Do`, `http.NewRequest` and headers other than `Authorization`, such as `Content-Type`. Each upstream call is an abstract `Reply`.
- JSON is not modelled: marshalling, unmarshalling, `ioutil.ReadAll` and echo's `c.Bind` and `c.JSON`. A body is unreadable, malformed or parsed, and binding succeeds with a `GenerationInfo` or fails with a reason. `json.Marshal` of the two request structs cannot fail, so its error branch is not modelled.
- The JSON encoding of an empty search result (`"tracks": null` for a nil Go slice) is not modelled. The model's result is just an empty track list.
- URL query encoding (`query.Encode()`) is not modelled. The recommendations query is the list of key/value pairs in the order they were added. The search query string is forwarded verbatim as an opaque string.
- The model assumes `http.NewRequest` succeeds. The code discards its error (`req, _ :=` at server/playlists.go:113 and :198). A `User` or playlist id that makes the URL unparseable, such as `%zz` or a control character, leaves `req` nil, so `req.Header.Set` panics. The model still issues the call.
- The model assumes a parsed body is not JSON `null`. `json.Unmarshal` of `null` into a pointer sets it to nil without an error (server/playlists.go:136 and :179, server/tracks.go:79). The handler then panics when it dereferences the pointer (server/playlists.go:90 or :94, server/tracks.go:86). The model's `Parsed` reply carries on.
- The `status` field of `BadStatus` stands for the status code the code logs. The Go error itself is only the fixed per-step message, so two bad statuses give errors the model tells apart and Go does not.
- Logging (`s.e.Logger`) is not modelled. It has no effect on results.
- How echo renders a returned Go error as an HTTP response is framework behaviour, so it is not modelled.
- Flattening a search item with no image or no album artist makes the Go code panic on index 0. The model makes "at least one of each" a precondition (`FlattenableReply`).
- server/playlist.go is an older snapshot that cannot compile beside server/playlists.go, so it is not part of this model.
- main.go, server.go and server/server.go are not part of this model. They hold bootstrap, CORS, routing, a hello-world handler and the health endpoint.
- errors/errors.go is not part of this model. It holds only sentinel errors, and the handlers never use them.
- Concurrency, timeouts and cancellation are not modelled. The handlers implement none of them.
- The model uses Dafny's unbounded `int` for upstream status codes. `Limit` is a 64-bit integer, and values outside that range fail to bind.
