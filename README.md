# SoundCloudExplode core, modelled in Dafny

This project models the request logic of the SoundCloudExplode client library:

- **PlaylistClient** recognises a playlist URL:
  - A short link is first followed to the address it redirects to.
  - The result is lower-cased and tested against the playlist pattern.
  - An invalid URL fails before anything is resolved.
- **PlaylistClient** fetches a playlist's tracks:
  - It drops the first `offset` ids.
  - It requests the rest 50 ids at a time.
  - It puts each answer back into the order of its request and stamps every track with the playlist's title.
  - It concatenates the answers in chunk order.
  - `GetAsync` with auto-populate replaces the playlist's track array with that list.
- **UserClient** checks user URLs: the lower-cased URL must be well formed, on `soundcloud.com` or `m.soundcloud.com`, with two path segments.
- **UserClient** reads the four collections of a user (`toptracks`, `tracks`, `playlists`, `albums`). Each call checks the limit, resolves the user, sends one GET and returns the list in the answer's `collection` field.
- **HttpExtensions** prepares and classifies every request:
  - A browser User-Agent is added only when the request has none.
  - Caller headers are copied in dictionary order.
  - Status 429 is the rate-limit failure and any other non-2xx status is a generic failure carrying its code.
  - `GetFileSizeAsync` has no 429 case and returns the Content-Length.

The model is built on these modules:

- **Common.** Option, Result and the error kinds.
- **Text.** ASCII lower-casing, decimal rendering and parsing, and comma join and split.
- **Records.** The track, playlist and user fields the logic reads.
- **Query.** Reading interpolated addresses back.
- **UrlPatterns.** The two regular expressions written out as string predicates.
- **Batching.** Windowing, chunking, the stable re-ordering and stamping.
- **Bridge.** The endpoint's resolve call.
- **HttpExt.** Classes `RequestMessage`, whose headers are updated in place, and `HttpClient`, whose ghost `sent` log records every request put on the wire.
- **Playlists.** Specification functions, plus class `PlaylistClient`, whose methods are proved to agree with them request by request.
- **Users.** Pure functions, because the user client keeps no state.

Outside answers are parameters of the model:

- the transport;
- the resolver;
- the JSON deserializer;
- `Uri.IsWellFormedUriString`;
- `UriBuilder.Host`;
- `Uri.Segments`.

## Model

| member | source | states |
|---|---|---|
| UrlPatterns.IsShortLink | SoundCloudExplode/Playlist/PlaylistClient.cs:25 | a short-link match needs the host literal, at least one character, a `/` and one more character, so every short link is at least 17 characters long; how it treats case is stated by LowerKeepsShortLink, CapitalShortLinkRejected and ShortLinkIsCaseSensitive |
| UrlPatterns.MatchesPlaylistPattern | SoundCloudExplode/Playlist/PlaylistClient.cs:26 | every string the playlist pattern matches contains `/sets/` and is at least 20 characters long; which addresses it accepts and refuses is stated by SetUrlMatches, WithoutSetsNoMatch, TrackUrlDoesNotMatch and LowerKeepsPlaylistMatch |
| UrlPatterns.SetUrlMatches | SoundCloudExplode/Playlist/PlaylistClient.cs:26 | any `https://soundcloud.com/<owner>/sets/<letter…>` address, with no line feed in the owner path, matches the playlist pattern |
| UrlPatterns.WithoutSetsNoMatch | SoundCloudExplode/Playlist/PlaylistClient.cs:26 | a string with no `/sets/` anywhere never matches the playlist pattern |
| UrlPatterns.TrackUrlDoesNotMatch | SoundCloudExplode/Playlist/PlaylistClient.cs:26 | a track page address is not a playlist address |
| UrlPatterns.LowerKeepsPlaylistMatch | SoundCloudExplode/Playlist/PlaylistClient.cs:26 | lower-casing never loses a playlist match |
| UrlPatterns.LowerKeepsNoNewline | SoundCloudExplode/Playlist/PlaylistClient.cs:26 | lower-casing neither adds nor removes a line feed (the character `.` refuses) |
| UrlPatterns.LowerKeepsShortLink | SoundCloudExplode/Playlist/PlaylistClient.cs:25 | lower-casing never loses a short link, for every input (the converse fails, see ShortLinkIsCaseSensitive) |
| UrlPatterns.ShortLinkExample | SoundCloudExplode/Playlist/PlaylistClient.cs:25 | a lower-case `on.soundcloud.com/…` link is recognised as a short link |
| UrlPatterns.CapitalShortLinkRejected | SoundCloudExplode/Playlist/PlaylistClient.cs:25 | the short-link test is run on the raw input, so a capitalised short link is not recognised |
| UrlPatterns.LoweredShortLinkAccepted | SoundCloudExplode/Playlist/PlaylistClient.cs:25 | the lower-case form of that same link is recognised |
| UrlPatterns.ShortLinkIsCaseSensitive | SoundCloudExplode/Playlist/PlaylistClient.cs:47 | some URL fails the short-link test while its lower-case form passes it |
| Playlists.Probe | SoundCloudExplode/Playlist/PlaylistClient.cs:47-57 | IsUrlValidAsync sends one bare GET exactly when the URL is a short link, and nothing otherwise |
| Playlists.Target | SoundCloudExplode/Playlist/PlaylistClient.cs:47-57 | a URL that is not a short link is classified as given; a short link is replaced by the final request URI of the probe request that Probe lists |
| Playlists.UrlValid | SoundCloudExplode/Playlist/PlaylistClient.cs:59-61 | the lower-cased target of every valid URL contains `/sets/` |
| Playlists.UrlValidIgnoresCase | SoundCloudExplode/Playlist/PlaylistClient.cs:59-61 | when neither form is a short link, a URL and its lower-case form are classified alike |
| Playlists.WithoutSetsInvalid | SoundCloudExplode/Playlist/PlaylistClient.cs:59-61 | a target without `/sets/` is never a valid playlist URL |
| Playlists.MatchingUrlValid | SoundCloudExplode/Playlist/PlaylistClient.cs:59-61 | a non-short-link URL that matches the pattern in any case, and is well formed once lower-cased, is valid |
| Playlists.PlaylistClient.IsUrlValid | SoundCloudExplode/Playlist/PlaylistClient.cs:43-62 | the answer is the classification of the lower-cased target, and the requests sent are exactly the short-link probe |
| Playlists.Resolved | SoundCloudExplode/Playlist/PlaylistClient.cs:81-82 | a resolver failure is passed on unchanged; after a successful resolve a `null` document gives no playlist (and only it does), a parsed document gives that playlist, and the only failure left is a malformed document |
| Playlists.Lookup | SoundCloudExplode/Playlist/PlaylistClient.cs:78-82 | GetAsync without auto-populate fails with the invalid-URL error when the check fails |
| Playlists.InvalidUrlFailsFast | SoundCloudExplode/Playlist/PlaylistClient.cs:78-79 | an invalid URL makes GetAsync and GetTracksAsync fail with the invalid-URL error, send only the short-link probe, and resolve nothing |
| Playlists.PlaylistOutcome | SoundCloudExplode/Playlist/PlaylistClient.cs:73-94 | GetAsync fails with the invalid-URL error whenever the check fails |
| Playlists.Populated | SoundCloudExplode/Playlist/PlaylistClient.cs:84-91 | with auto-populate, success means the title is kept and the track array is the fetched list with every track stamped with that title |
| Playlists.AutoPopulateReplacesTracks | SoundCloudExplode/Playlist/PlaylistClient.cs:84-93 | without auto-populate the resolved record is returned untouched; with it, the track array becomes the GetTracksAsync list with every track named after the title |
| Playlists.NullPlaylist | SoundCloudExplode/Playlist/PlaylistClient.cs:82-90 | a `null` playlist document is returned as no playlist without auto-populate, and is a null dereference with it |
| Playlists.PlaylistClient.Get | SoundCloudExplode/Playlist/PlaylistClient.cs:73-94 | the method returns PlaylistOutcome, sends exactly PlaylistSent and resolves exactly PlaylistResolves; the stamping is done in place on a fresh array |
| Playlists.TracksOutcome | SoundCloudExplode/Playlist/PlaylistClient.cs:105-106 | GetTracksAsync fails with the invalid-URL error whenever the check fails |
| Playlists.NoTrackArrayNoRequests | SoundCloudExplode/Playlist/PlaylistClient.cs:109-110 | a null playlist or a missing track array gives an empty list, and only the two short-link probes go out |
| Playlists.PlaylistClient.GetTracks | SoundCloudExplode/Playlist/PlaylistClient.cs:99-145 | the method returns TracksOutcome, sends exactly TracksSent and resolves exactly TracksResolves |
| Playlists.PlaylistClient.FetchFound | SoundCloudExplode/Playlist/PlaylistClient.cs:109-144 | after GetAsync, the method returns TracksOf and sends TracksOfSent: nothing for a missing record or track array, the chunk loop otherwise |
| Playlists.TracksOf | SoundCloudExplode/Playlist/PlaylistClient.cs:109-144 | a missing record or track array gives the empty list; every track of a successful result carries the playlist's title |
| Playlists.TracksSent | SoundCloudExplode/Playlist/PlaylistClient.cs:105-132 | the requests of GetTracksAsync begin with its own short-link probe, and are only that probe when the URL is invalid |
| Playlists.TracksResolves | SoundCloudExplode/Playlist/PlaylistClient.cs:105-108 | GetTracksAsync resolves its URL exactly once when the URL is valid, and never otherwise |
| Playlists.PlaylistSent | SoundCloudExplode/Playlist/PlaylistClient.cs:78-86 | the requests of GetAsync begin with its short-link probe, and are only that probe without auto-populate |
| Playlists.PlaylistResolves | SoundCloudExplode/Playlist/PlaylistClient.cs:78-86 | GetAsync resolves nothing for an invalid URL and otherwise only its own URL: once without auto-populate, twice with it |
| Batching.Window | SoundCloudExplode/Playlist/PlaylistClient.cs:117-118 | a positive offset drops that many leading tracks (all of them when it reaches the length); otherwise the list is unchanged; the result is always a suffix |
| Batching.Chunks | SoundCloudExplode/Playlist/PlaylistClient.cs:123 | every chunk holds between 1 and `size` elements, and there are no chunks exactly when the list is empty |
| Batching.FlattenChunks | SoundCloudExplode/Playlist/PlaylistClient.cs:123 | the chunks concatenated give back the list exactly |
| Batching.ChunksFull | SoundCloudExplode/Playlist/PlaylistClient.cs:123 | every chunk but the last is full |
| Batching.ChunkCountBounds | SoundCloudExplode/Playlist/PlaylistClient.cs:123 | the chunk count c is the least with c·size ≥ n |
| Batching.BatchCount | SoundCloudExplode/Playlist/PlaylistClient.cs:122-123 | with 50 ids per request, n ids take ceil(n/50) requests |
| Playlists.Batches | SoundCloudExplode/Playlist/PlaylistClient.cs:117-123 | the chunks of the windowed list concatenate to the window, hold 1 to 50 tracks each, and number ceil(n/50) |
| Records.Ids | SoundCloudExplode/Playlist/PlaylistClient.cs:125 | one id per track, in track order |
| Text.JoinIdsRoundTrip | SoundCloudExplode/Playlist/PlaylistClient.cs:125-126 | the comma-joined ids of a non-empty chunk split and parse back to the same ids, in order |
| Text.SplitJoin | SoundCloudExplode/Playlist/PlaylistClient.cs:126 | splitting a join of separator-free parts gives the parts back |
| Text.JoinSplit | SoundCloudExplode/Playlist/PlaylistClient.cs:126 | joining the split of a string gives the string back |
| Text.IntToStringRoundTrip | SoundCloudExplode/Playlist/PlaylistClient.cs:130 | rendering an integer in decimal and parsing it gives the integer back |
| Text.NatToStringValue | SoundCloudExplode/Playlist/PlaylistClient.cs:130 | the digits of a rendered natural number have that value |
| Text.JoinIdsAvoids | SoundCloudExplode/Playlist/PlaylistClient.cs:126-130 | joined ids contain no character other than digits, `-` and `,`, so the `&` that follows them ends the parameter |
| Text.Join | SoundCloudExplode/Playlist/PlaylistClient.cs:126 | no contract of its own; SplitJoin and JoinSplit make it the inverse of Split on separator-free parts, and JoinAvoids says it adds no character but the separator |
| Text.JoinAvoids | SoundCloudExplode/Playlist/PlaylistClient.cs:126 | a character that is neither the separator nor in any part is not in the join |
| Text.JoinIds | SoundCloudExplode/Playlist/PlaylistClient.cs:126 | the joined ids are empty exactly when there are no ids; JoinIdsRoundTrip reads them back |
| Text.IntToString | SoundCloudExplode/Playlist/PlaylistClient.cs:130 | the rendering is at least one character, all of them digits except a leading minus sign; IntToStringRoundTrip reads it back |
| Playlists.TracksUrl | SoundCloudExplode/Playlist/PlaylistClient.cs:129-130 | every chunk request address starts with the tracks endpoint; its parameters read back by TracksUrlRoundTrip |
| Playlists.TracksUrlRoundTrip | SoundCloudExplode/Playlist/PlaylistClient.cs:129-130 | a chunk request address carries the chunk's ids in order and the caller's limit and offset unchanged |
| Batching.Key | SoundCloudExplode/Playlist/PlaylistClient.cs:139 | the sort key is -1 exactly for an unrequested id, and otherwise the first position of the id in the request |
| Common.IndexOf | SoundCloudExplode/Playlist/PlaylistClient.cs:139 | the first position of an element, or -1 exactly when it is absent |
| Batching.Insert | SoundCloudExplode/Playlist/PlaylistClient.cs:139 | one insertion step of the stable sort makes the list one longer |
| Batching.OrderByIndex | SoundCloudExplode/Playlist/PlaylistClient.cs:139 | the re-ordering keeps the length; permutation, order and stability are the lemmas below |
| Batching.InsertPermutes | SoundCloudExplode/Playlist/PlaylistClient.cs:139 | one insertion step adds the track to the multiset and nothing else |
| Batching.OrderByIndexPermutes | SoundCloudExplode/Playlist/PlaylistClient.cs:139 | the re-ordered answer is a permutation of the answer |
| Batching.OrderByIndexSorted | SoundCloudExplode/Playlist/PlaylistClient.cs:139 | the re-ordered answer is sorted by request position |
| Batching.OrderByIndexStable | SoundCloudExplode/Playlist/PlaylistClient.cs:139 | the sort is stable: tracks with equal keys keep their relative order |
| Batching.UnrequestedFirst | SoundCloudExplode/Playlist/PlaylistClient.cs:139 | an unrequested track is preceded only by unrequested tracks |
| Batching.IdsOrderByIndex | SoundCloudExplode/Playlist/PlaylistClient.cs:139 | re-ordering keeps the multiset of ids |
| Batching.RestoresRequestOrder | SoundCloudExplode/Playlist/PlaylistClient.cs:128-139 | when the answer holds exactly the requested distinct ids, in any order, the re-ordered ids equal the request |
| Batching.Stamp | SoundCloudExplode/Playlist/PlaylistClient.cs:135-136 | the same number of tracks, each with its playlist name set to the title and its id and title unchanged |
| Batching.StampOrderByIndex | SoundCloudExplode/Playlist/PlaylistClient.cs:135-139 | stamping and re-ordering commute |
| Batching.StampAll | SoundCloudExplode/Playlist/PlaylistClient.cs:135-136 | the in-place loop leaves every track's name set to the title, with nothing else changed |
| Playlists.PlaylistClient.StampCopy | SoundCloudExplode/Playlist/PlaylistClient.cs:87-90 | `Tracks = tracks.ToArray()` followed by the stamping loop yields the stamped list |
| Playlists.ChunkOutcome | SoundCloudExplode/Playlist/PlaylistClient.cs:129-139 | a failed request is passed on unchanged; after a successful answer the only failures are a malformed or a `null` track list |
| Playlists.Gather | SoundCloudExplode/Playlist/PlaylistClient.cs:120-144 | the loop succeeds only when every chunk succeeds, and a failure is the failure of one of its chunks |
| Playlists.ChunkStamped | SoundCloudExplode/Playlist/PlaylistClient.cs:134-139 | every track of a successful chunk result carries the title |
| Playlists.PlaylistClient.FetchChunk | SoundCloudExplode/Playlist/PlaylistClient.cs:125-141 | one round sends the chunk's request and returns the chunk outcome: fetch, deserialize, stamp, re-order |
| Playlists.ChunkRequest | SoundCloudExplode/Playlist/PlaylistClient.cs:125-132 | a chunk request carries only the default User-Agent, and a non-empty chunk's ids, the limit and the offset read back from its address |
| Playlists.Requests | SoundCloudExplode/Playlist/PlaylistClient.cs:123-132 | one request per chunk |
| Playlists.RequestsInOrder | SoundCloudExplode/Playlist/PlaylistClient.cs:123-132 | the k-th request is the one for the k-th chunk |
| Playlists.GatherSent | SoundCloudExplode/Playlist/PlaylistClient.cs:123-142 | the loop sends the k-th chunk's request k-th; every chunk's request when it succeeds; on a failure the last request sent is that of the failing chunk |
| Playlists.Attempts | SoundCloudExplode/Playlist/PlaylistClient.cs:123-142 | the loop attempts at most every chunk and all of them when it succeeds; on a failure, the last attempted chunk is the one that failed and every chunk before it succeeded |
| Playlists.GatherAllOk | SoundCloudExplode/Playlist/PlaylistClient.cs:120-144 | when every chunk succeeds, the result is the chunk results concatenated in chunk order |
| Playlists.GatherStops | SoundCloudExplode/Playlist/PlaylistClient.cs:123-142 | the first failure ends the loop: later chunks change neither the outcome nor the requests sent |
| Playlists.GatherStamped | SoundCloudExplode/Playlist/PlaylistClient.cs:135-141 | every returned track carries the playlist's title |
| Playlists.PlaylistClient.FetchAll | SoundCloudExplode/Playlist/PlaylistClient.cs:120-144 | the accumulating loop returns Gather and sends one request per attempted chunk, in chunk order |
| Playlists.TracksCarryTitle | SoundCloudExplode/Playlist/PlaylistClient.cs:134-141 | every track GetTracksAsync returns carries the playlist's title |
| Playlists.HonestChunk | SoundCloudExplode/Playlist/PlaylistClient.cs:125-139 | one honestly answered chunk comes back as its own ids in chunk order |
| Playlists.HonestAnswer | SoundCloudExplode/Playlist/PlaylistClient.cs:134-139 | an honest answer to a chunk without repeated ids comes back in request order |
| Playlists.NoDupChunk | SoundCloudExplode/Playlist/PlaylistClient.cs:123 | a chunk of a repeat-free window has no repeated ids |
| Playlists.IdsFlatten | SoundCloudExplode/Playlist/PlaylistClient.cs:141 | the chunk results concatenated, each with its chunk's ids, have the window's ids |
| Playlists.HonestGather | SoundCloudExplode/Playlist/PlaylistClient.cs:120-144 | with an honest server and distinct ids, the loop succeeds, returns exactly the window's ids in order, and sends ceil(n/50) requests |
| Playlists.HonestServerKeepsPlaylistOrder | SoundCloudExplode/Playlist/PlaylistClient.cs:99-145 | end to end, for a valid URL: GetTracksAsync returns the playlist's windowed ids in playlist order, whatever the limit, after two probes and ceil(n/50) chunk requests |
| Text.LowerIdempotent | SoundCloudExplode/User/UserClient.cs:43 | lower-casing twice is lower-casing once |
| Text.Lower | SoundCloudExplode/User/UserClient.cs:43 | the length is kept, no upper-case letter remains, upper-case letters move to lower case and every other character is kept |
| Users.IsUrlValid | SoundCloudExplode/User/UserClient.cs:41-52 | a URL that is not well formed once lower-cased is rejected; an accepted URL has host `soundcloud.com` or `m.soundcloud.com` and exactly two segments |
| Users.IsUrlValidIgnoresCase | SoundCloudExplode/User/UserClient.cs:43 | a URL and its lower-case form are classified alike |
| Users.OtherHostInvalid | SoundCloudExplode/User/UserClient.cs:50 | any other host is rejected |
| Users.UserResolves | SoundCloudExplode/User/UserClient.cs:64-67 | GetAsync resolves its own URL once when the check passes, and nothing otherwise |
| Users.GetUser | SoundCloudExplode/User/UserClient.cs:60-69 | an invalid URL fails with the invalid-URL error; otherwise a resolver failure is passed on unchanged and a parsed document is returned as the user; success means the resolve succeeded and the document parsed; no user exactly when the document is `null` |
| Users.InvalidUserUrlFailsFast | SoundCloudExplode/User/UserClient.cs:64-65 | an invalid user URL fails before anything is resolved |
| Users.SubPathsDistinct | SoundCloudExplode/User/UserClient.cs:86 | the four methods ask for four different sub-paths |
| Users.SubPath | SoundCloudExplode/User/UserClient.cs:86 | every sub-path is non-empty and holds no `?`, so it stays inside the path of the address (the four are at lines 86, 109, 132 and 155) |
| Users.CollectionUrl | SoundCloudExplode/User/UserClient.cs:85-87 | every collection address starts with the users endpoint; its parts read back by CollectionUrlRoundTrip |
| Users.CollectionUrlRoundTrip | SoundCloudExplode/User/UserClient.cs:85-87 | a collection address carries the user's id, the method's sub-path, and the caller's offset and limit unchanged |
| Users.CollectionUrlsDistinct | SoundCloudExplode/User/UserClient.cs:108-110 | two different collection methods never send the same address |
| Users.Envelope | SoundCloudExplode/User/UserClient.cs:85-89 | success means a 2xx answer whose `collection` field holds the returned text |
| Users.Listing | SoundCloudExplode/User/UserClient.cs:74-92 | an out-of-range limit fails first; then an invalid URL; a `null` user is a null dereference; success means every guard passed and the list is the parse of the `collection` field |
| Users.InvalidLimitFailsFast | SoundCloudExplode/User/UserClient.cs:80-81 | a limit outside [min, max] fails with the limit error before any resolve or request |
| Users.LimitInRange | SoundCloudExplode/User/UserClient.cs:80-81 | an empty range accepts no limit; LimitBoundsInclusive and InvalidLimitFailsFast show both ends are inclusive and everything outside is refused |
| Users.ListingResolves | SoundCloudExplode/User/UserClient.cs:80-83 | a collection method resolves nothing when the limit is out of range, and otherwise at most its own URL once |
| Users.ListingSent | SoundCloudExplode/User/UserClient.cs:80-87 | a collection method sends at most one request: exactly one when the limit is in range and the user is found, to an address under the users endpoint |
| Users.LimitBoundsInclusive | SoundCloudExplode/User/UserClient.cs:103-104 | both ends of the limit range pass the guard, and the call goes on to resolve the URL |
| Users.InvalidUrlSendsNothing | SoundCloudExplode/User/UserClient.cs:126-127 | with a valid limit, an invalid URL fails with the invalid-URL error before any resolve or request |
| Users.OneRequestPerCall | SoundCloudExplode/User/UserClient.cs:131-133 | once the user is found, the URL is resolved once and exactly one request goes out, with the default User-Agent, to the method's own sub-path, with the caller's offset and limit |
| HttpExt.WithUserAgent | SoundCloudExplode/Utils/Extensions/HttpExtensions.cs:43-50 | afterwards a User-Agent is present; existing headers stay in place and unchanged; the default is appended only when none was there |
| HttpExt.WithUserAgentIdempotent | SoundCloudExplode/Utils/Extensions/HttpExtensions.cs:43-50 | a second User-Agent step changes nothing: the first value wins |
| HttpExt.HasHeader | SoundCloudExplode/Utils/Extensions/HttpExtensions.cs:44 | no contract of its own: `Headers.Contains` as a case-insensitive search; HasHeaderIgnoresCase states that |
| HttpExt.HasHeaderIgnoresCase | SoundCloudExplode/Utils/Extensions/HttpExtensions.cs:44 | asking for a header under any capitalisation of its name gives the same answer |
| HttpExt.CallerUserAgentWins | SoundCloudExplode/Utils/Extensions/HttpExtensions.cs:29-50 | a User-Agent the caller supplied, in any capitalisation, and the request accepted is never replaced |
| HttpExt.Accepted | SoundCloudExplode/Utils/Extensions/HttpExtensions.cs:29-33 | the copy never has more headers than the dictionary has entries, and every header in it is an accepted entry of the dictionary, name and value |
| HttpExt.AcceptedAll | SoundCloudExplode/Utils/Extensions/HttpExtensions.cs:29-33 | when every name is accepted, the copied headers are the dictionary's entries, one by one and in order |
| HttpExt.AcceptedKeeps | SoundCloudExplode/Utils/Extensions/HttpExtensions.cs:29-33 | every accepted entry ends up among the request's headers |
| HttpExt.AcceptedConcat | SoundCloudExplode/Utils/Extensions/HttpExtensions.cs:29-33 | copying two runs of entries gives the copy of the first followed by the copy of the second, so kept entries stay in order |
| HttpExt.AcceptedOne | SoundCloudExplode/Utils/Extensions/HttpExtensions.cs:32 | one entry is copied as one header when accepted and dropped otherwise |
| HttpExt.AcceptedDropsRejected | SoundCloudExplode/Utils/Extensions/HttpExtensions.cs:29-33 | a rejected entry leaves the copy as if it were not in the dictionary |
| HttpExt.RequestMessage.TryAddWithoutValidation | SoundCloudExplode/Utils/Extensions/HttpExtensions.cs:32 | the header is appended exactly when the name is accepted |
| HttpExt.RequestMessage.AddUserAgentIfMissing | SoundCloudExplode/Utils/Extensions/HttpExtensions.cs:44-50 | the headers become WithUserAgent of the old headers |
| HttpExt.HttpClient.ExecuteGetWithHeaders | SoundCloudExplode/Utils/Extensions/HttpExtensions.cs:22-36 | the indexed loop offers entries 0 to Count-1 in order; exactly one request goes out, with the accepted headers plus the default User-Agent where needed; its answer is classified |
| HttpExt.ClassifyBody | SoundCloudExplode/Utils/Extensions/HttpExtensions.cs:58-75 | success exactly for 2xx, returning the body unchanged; 429 is exactly the rate-limit failure; any other failure carries its status code |
| HttpExt.HttpClient.Send | SoundCloudExplode/Utils/Extensions/HttpExtensions.cs:52-56 | one request goes on the wire, is logged, and is answered by the transport |
| HttpExt.HttpClient.Execute | SoundCloudExplode/Utils/Extensions/HttpExtensions.cs:38-76 | adds the User-Agent when missing, sends the request once and classifies the answer |
| HttpExt.GetRequest | SoundCloudExplode/Utils/Extensions/HttpExtensions.cs:18-19 | a fresh GET request goes out with the default User-Agent as its only header |
| HttpExt.GetOutcome | SoundCloudExplode/Utils/Extensions/HttpExtensions.cs:13-20 | ExecuteGetAsync(url) succeeds exactly on a 2xx answer to that request, with its body |
| HttpExt.HttpClient.ExecuteGet | SoundCloudExplode/Utils/Extensions/HttpExtensions.cs:13-20 | exactly the GetRequest for the URL goes out, and the result is GetOutcome |
| HttpExt.ClassifyFileSize | SoundCloudExplode/Utils/Extensions/HttpExtensions.cs:107-115 | success exactly for 2xx, returning the possibly absent Content-Length; every other status, 429 included, is the generic failure with its code |
| HttpExt.ClassificationsAgree | SoundCloudExplode/Utils/Extensions/HttpExtensions.cs:58-115 | both classifications accept the same statuses and fail alike, except 429: a rate-limit failure in one and the generic failure in the other |
| HttpExt.HttpClient.GetFileSize | SoundCloudExplode/Utils/Extensions/HttpExtensions.cs:87-116 | adds the User-Agent when missing, sends once and classifies the answer without a 429 case |
| HttpExt.HttpClient.GetFileSizeOf | SoundCloudExplode/Utils/Extensions/HttpExtensions.cs:78-85 | exactly the GetRequest for the URL goes out, and its answer is classified by ClassifyFileSize |
| Bridge.SoundcloudEndpoint.ResolveUrl | SoundCloudExplode/Playlist/PlaylistClient.cs:81 | one resolve call, recorded in order and answered by the resolver |

## Left out
- **Network, async and cancellation.**
  - The transport, the endpoint's ResolveUrlAsync and the JSON deserializer are functions the model is given.
  - The short-link redirect is the final request URI that the transport reports.
  - Because they are functions, repeated requests and resolves of the same URL get the same answer.
  - Cancellation tokens and `await` are not modelled.
- **Transport failures.** The transport always answers. A thrown `SendAsync` is not modelled, whether from a connection failure, a time-out, cancellation, or the InvalidOperationException for a relative URI on a client without BaseAddress. An example is the short-link probe of `on.soundcloud.com/abc`: the source throws there, while the model classifies the final URI the transport reports.
- **Library calls.** `Uri.IsWellFormedUriString`, `UriBuilder.Host`, `Uri.Segments` and the header-name validation of `TryAddWithoutValidation` are supplied as functions (`UriLib` and `acceptsHeaderName`).
- **The regular-expression engine.** Only the two fixed patterns are encoded, and only whether a match exists matters, not which one.
- **Culture.** `ToLower` is ASCII-only, so culture-specific case mappings outside A–Z are not modelled. Numbers in interpolated addresses are rendered in invariant-culture decimal (`-` and the digits 0–9), while the source renders `offset`, `limit` and ids with the current culture, whose negative sign may differ.
- **Files outside the core.** `ChunkBy` is not part of this model. Chunking is defined as consecutive pieces of 50, the last possibly shorter, and none for an empty list.
- **Constants.** `Constants` and `Http.ChromeUserAgent` are parameters of the model:
  - the client id;
  - the default offset and limit;
  - the minimum and maximum limit;
  - the browser User-Agent.
- **Exception messages.** Only the error kind and when it is raised are modelled. The text, including the status code in the message, is left out; the code is carried in the error value instead.
- **Integer widths.** Track and user ids are `long`, and offset and limit are `int`. They are unbounded integers here; no arithmetic is done on them, so no overflow can occur.
- **Null elements.** A `null` element inside a deserialized track list is not modelled; a `null` list is.
- **Playlists.PlaylistClient.IsUrlValid:** the short-link test runs on the raw string, so the classification ignores case only when neither form is a short link. That is how `UrlValidIgnoresCase` is stated.
- **Users.Listing:** a `null` user is modelled as the NullReference error. The source hits it when interpolating `user.Id`.
- **Users.Envelope:** `JsonNode.Parse(...)["collection"].ToString()` is one given function from the body to the field's text, with a missing field or a `null` document as NullReference.
- **Users.GetTracks, GetPopularTracks, GetPlaylists, GetAlbums:** each is `Listing` with its own collection and parser. Their properties are stated once, for every collection, on `Listing` and the lemmas beside it.
- **HttpClient default headers.** `DefaultRequestHeaders` and the HTTP method are not part of the request model; every request is a GET.
- **Disposal.** The `using` disposal of requests and responses is not modelled.
