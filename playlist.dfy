/** PlaylistClient: recognising a playlist URL (a short link is first
    followed to its target), resolving it to its playlist document, and
    fetching its tracks 50 ids at a time, each answer put back into the
    order of its request and stamped with the playlist's title.

    The specification functions take every outside answer from a Services
    value; the class below runs the same steps against an HttpClient and a
    SoundcloudEndpoint and is proved to agree with them, request by request. */
module Playlists {
  import opened Common
  import opened Text
  import opened Records
  import opened HttpExt
  import opened UrlPatterns
  import opened Batching
  import opened Query
  import opened Bridge

  /** What the JSON deserializer makes of the two documents the client reads. */
  datatype PlaylistJson = PlaylistJson(
    playlist: string -> Doc<Playlist>,      // Deserialize<PlaylistInformation>
    trackList: string -> Doc<seq<Track>>)   // Deserialize<List<TrackInformation>>

  /** Everything outside the client its answers depend on: the transport and
      default User-Agent of its HttpClient, the endpoint's resolver, the JSON
      and URI libraries, and the constants the source reads (its client id,
      default offset and default limit). */
  datatype Services = Services(
    transport: HttpRequest -> HttpResponse,
    userAgent: string,
    resolver: string -> Result<string>,
    json: PlaylistJson,
    uri: UriLib,
    clientId: string,
    defaultOffset: int,
    defaultLimit: int)

  // ------------------------------------------------------- URL recognition

  /** The requests IsUrlValidAsync sends: one plain GET for a short link. */
  function Probe(env: Services, url: string): (reqs: seq<HttpRequest>)
    ensures |reqs| <= 1
    ensures IsShortLink(url) <==> reqs == [HttpRequest(url, [])]
    ensures !IsShortLink(url) ==> reqs == []
  {
    if IsShortLink(url) then [HttpRequest(url, [])] else []
  }

  /** The URL that is classified: a short link's final request URI, anything
      else as given. */
  function Target(env: Services, url: string): (t: string)
    ensures !IsShortLink(url) ==> t == url
    ensures IsShortLink(url) ==> t == env.transport(Probe(env, url)[0]).finalUri
  {
    if IsShortLink(url) then env.transport(HttpRequest(url, [])).finalUri else url
  }

  /** IsUrlValidAsync: the lower-cased target is a well-formed absolute URI
      and matches the playlist pattern. */
  predicate UrlValid(env: Services, url: string)
    ensures UrlValid(env, url) ==> exists k :: SetsAt(Lower(Target(env, url)), k)
  {
    var l := Lower(Target(env, url));
    env.uri.isWellFormedAbsolute(l) && MatchesPlaylistPattern(l)
  }

  /** Apart from short links, the classification ignores case. */
  lemma UrlValidIgnoresCase(env: Services, url: string)
    requires !IsShortLink(url) && !IsShortLink(Lower(url))
    ensures UrlValid(env, url) == UrlValid(env, Lower(url))
  {
    LowerIdempotent(url);
  }

  /** A URL (or short-link target) without `/sets/` is never a playlist URL. */
  lemma WithoutSetsInvalid(env: Services, url: string)
    requires forall k :: !SetsAt(Lower(Target(env, url)), k)
    ensures !UrlValid(env, url)
  {
    WithoutSetsNoMatch(Lower(Target(env, url)));
  }

  /** A URL that matches in any case matches once lower-cased, so only the
      well-formedness test and the short-link step can turn it down. */
  lemma MatchingUrlValid(env: Services, url: string)
    requires !IsShortLink(url) && MatchesPlaylistPattern(url)
    requires env.uri.isWellFormedAbsolute(Lower(url))
    ensures UrlValid(env, url)
  {
    LowerKeepsPlaylistMatch(url);
  }

  // ------------------------------------------------------------ track URLs

  const TracksEndpoint := "https://api-v2.soundcloud.com/tracks?ids="

  /** The address of one chunk request. */
  function TracksUrl(ids: seq<int>, limit: int, offset: int, clientId: string): (u: string)
    ensures TracksEndpoint <= u
  {
    Param(TracksEndpoint, JoinIds(ids),
      Param("&limit=", IntToString(limit),
        Param("&offset=", IntToString(offset), "&client_id=" + clientId)))
  }

  /** Reads the ids, limit and offset back out of a chunk request address. */
  function ReadTracksQuery(u: string): Option<(seq<int>, int, int)>
  {
    match ReadParam(u, TracksEndpoint, '&')
    case None => None
    case Some((a, r1)) =>
      match ReadParam(r1, "&limit=", '&')
      case None => None
      case Some((b, r2)) =>
        match ReadParam(r2, "&offset=", '&')
        case None => None
        case Some((c, _)) =>
          match (ParseIds(a), ParseInt(b), ParseInt(c))
          case (Some(x), Some(y), Some(z)) => Some((x, y, z))
          case _ => None
  }

  /** A chunk request carries its ids comma-joined in chunk order, and the
      caller's limit and offset unchanged: all three read back exactly. */
  lemma TracksUrlRoundTrip(ids: seq<int>, limit: int, offset: int, clientId: string)
    requires 1 <= |ids|
    ensures ReadTracksQuery(TracksUrl(ids, limit, offset, clientId)) == Some((ids, limit, offset))
  {
    var tail3 := "&client_id=" + clientId;
    var tail2 := Param("&offset=", IntToString(offset), tail3);
    var tail1 := Param("&limit=", IntToString(limit), tail2);
    JoinIdsAvoids(ids, '&');
    ReadParamOf(TracksEndpoint, JoinIds(ids), tail1, '&');
    IntToStringAvoids(limit, '&');
    ReadParamOf("&limit=", IntToString(limit), tail2, '&');
    IntToStringAvoids(offset, '&');
    ReadParamOf("&offset=", IntToString(offset), tail3, '&');
    JoinIdsRoundTrip(ids);
    IntToStringRoundTrip(limit);
    IntToStringRoundTrip(offset);
  }

  // ------------------------------------------------------------- resolving

  /** ResolveUrlAsync followed by Deserialize<PlaylistInformation>: a
      document that is JSON null gives no playlist. */
  function Resolved(env: Services, url: string): (r: Result<Option<Playlist>>)
    ensures env.resolver(url).Err? ==> r == Err(env.resolver(url).error)
    ensures env.resolver(url).Ok? ==>
      (r == Ok(None) <==> env.json.playlist(env.resolver(url).value) == Null)
    ensures env.resolver(url).Ok? && env.json.playlist(env.resolver(url).value).Parsed? ==>
      r == Ok(Some(env.json.playlist(env.resolver(url).value).value))
    ensures r.Err? && env.resolver(url).Ok? ==> r.error == MalformedResponse
  {
    match env.resolver(url)
    case Err(e) => Err(e)
    case Ok(text) =>
      match env.json.playlist(text)
      case Malformed => Err(MalformedResponse)
      case Null => Ok(None)
      case Parsed(p) => Ok(Some(p))
  }

  // ------------------------------------------------------------ the chunks

  /** The windowed track list, cut into requests. */
  function Batches(ts: seq<Track>, offset: int): (cs: seq<seq<Track>>)
    ensures Flatten(cs) == Window(ts, offset)
    ensures forall k :: 0 <= k < |cs| ==> 1 <= |cs[k]| <= BatchSize
    ensures |cs| == (|Window(ts, offset)| + BatchSize - 1) / BatchSize
  {
    FlattenChunks(Window(ts, offset), BatchSize);
    BatchCount(Window(ts, offset));
    Chunks(Window(ts, offset), BatchSize)
  }

  /** The request for one chunk. */
  function ChunkRequest(env: Services, chunk: seq<Track>, limit: int, offset: int): (req: HttpRequest)
    ensures req.headers == [Header(UserAgent, env.userAgent)]
    ensures 1 <= |chunk| ==> ReadTracksQuery(req.url) == Some((Ids(chunk), limit, offset))
  {
    var req := GetRequest(TracksUrl(Ids(chunk), limit, offset, env.clientId), env.userAgent);
    if 1 <= |chunk| then TracksUrlRoundTrip(Ids(chunk), limit, offset, env.clientId); req
    else req
  }

  /** One round of the chunk loop: fetch, deserialize, stamp, re-order. */
  function ChunkOutcome(env: Services, chunk: seq<Track>, title: Option<string>, limit: int, offset: int): (r: Result<seq<Track>>)
    ensures var http := GetOutcome(env.transport, env.userAgent, TracksUrl(Ids(chunk), limit, offset, env.clientId));
      && (http.Err? ==> r == Err(http.error))
      && (http.Ok? && r.Err? ==> r.error == MalformedResponse || r.error == NullReference)
  {
    var ids := Ids(chunk);
    match GetOutcome(env.transport, env.userAgent, TracksUrl(ids, limit, offset, env.clientId))
    case Err(e) => Err(e)
    case Ok(body) =>
      match env.json.trackList(body)
      case Malformed => Err(MalformedResponse)
      case Null => Err(NullReference)
      case Parsed(ts) =>
        Ok(OrderByIndex(ids, Stamp(ts, title)))
  }

  /** Every track of a chunk's result carries the title. */
  lemma ChunkStamped(env: Services, chunk: seq<Track>, title: Option<string>, limit: int, offset: int)
    requires ChunkOutcome(env, chunk, title, limit, offset).Ok?
    ensures forall i :: 0 <= i < |ChunkOutcome(env, chunk, title, limit, offset).value| ==>
      ChunkOutcome(env, chunk, title, limit, offset).value[i].playlistName == title
  {
    var answer := env.transport(GetRequest(TracksUrl(Ids(chunk), limit, offset, env.clientId), env.userAgent));
    StampOrderByIndex(Ids(chunk), env.json.trackList(answer.body).value, title);
  }

  /** One round of the chunk loop, as a function of the chunk. */
  function Step(env: Services, title: Option<string>, limit: int, offset: int): seq<Track> -> Result<seq<Track>>
  {
    c => ChunkOutcome(env, c, title, limit, offset)
  }

  /** The request one round of the chunk loop sends, as a function of the chunk. */
  function Request(env: Services, limit: int, offset: int): seq<Track> -> HttpRequest
  {
    c => ChunkRequest(env, c, limit, offset)
  }

  /** The chunk loop over `cs`, each round done by `step`: the results in
      chunk order, or the first failure. */
  function Gather(step: seq<Track> -> Result<seq<Track>>, cs: seq<seq<Track>>): (r: Result<seq<Track>>)
    ensures r.Ok? ==> forall k :: 0 <= k < |cs| ==> step(cs[k]).Ok?
    ensures r.Err? ==> exists k :: 0 <= k < |cs| && step(cs[k]) == Err(r.error)
    decreases |cs|
  {
    if |cs| == 0 then Ok([])
    else
      match Gather(step, cs[..|cs| - 1])
      case Err(e) => Err(e)
      case Ok(acc) =>
        match step(cs[|cs| - 1])
        case Err(e) => Err(e)
        case Ok(ts) => Ok(acc + ts)
  }

  /** How many chunks the loop over `cs` fetches: all of them, or those up
      to and including the first that fails. */
  function Attempts(step: seq<Track> -> Result<seq<Track>>, cs: seq<seq<Track>>): (n: nat)
    ensures n <= |cs|
    ensures Gather(step, cs).Ok? ==> n == |cs|
    ensures Gather(step, cs).Err? ==> 1 <= n && Gather(step, cs[..n - 1]).Ok? && step(cs[n - 1]).Err?
    decreases |cs|
  {
    if |cs| == 0 then 0
    else if Gather(step, cs[..|cs| - 1]).Ok? then |cs|
    else
      var n := Attempts(step, cs[..|cs| - 1]);
      assert cs[..|cs| - 1][..n - 1] == cs[..n - 1];
      n
  }

  /** One request per chunk, in chunk order. */
  function Requests(request: seq<Track> -> HttpRequest, cs: seq<seq<Track>>): (reqs: seq<HttpRequest>)
    ensures |reqs| == |cs|
    decreases |cs|
  {
    if |cs| == 0 then [] else Requests(request, cs[..|cs| - 1]) + [request(cs[|cs| - 1])]
  }

  /** The k-th request is the one for the k-th chunk. */
  lemma {:induction false} RequestsInOrder(request: seq<Track> -> HttpRequest, cs: seq<seq<Track>>)
    ensures forall k :: 0 <= k < |cs| ==> Requests(request, cs)[k] == request(cs[k])
    decreases |cs|
  {
    if |cs| > 0 {
      var n := |cs| - 1;
      RequestsInOrder(request, cs[..n]);
      forall k | 0 <= k < n
        ensures Requests(request, cs)[k] == request(cs[k])
      {
        assert cs[..n][k] == cs[k];
      }
    }
  }

  lemma RequestsSnoc(request: seq<Track> -> HttpRequest, cs: seq<seq<Track>>, i: int)
    requires 0 <= i < |cs|
    ensures Requests(request, cs[..i + 1]) == Requests(request, cs[..i]) + [request(cs[i])]
  {
    assert cs[..i + 1][..i] == cs[..i];
  }

  /** The requests the chunk loop over `cs` sends. */
  function GatherSent(step: seq<Track> -> Result<seq<Track>>, request: seq<Track> -> HttpRequest,
                      cs: seq<seq<Track>>): (reqs: seq<HttpRequest>)
    ensures |reqs| <= |cs|
    ensures forall k :: 0 <= k < |reqs| ==> reqs[k] == request(cs[k])
    ensures Gather(step, cs).Ok? ==> |reqs| == |cs|
    ensures Gather(step, cs).Err? ==> 1 <= |reqs| && step(cs[|reqs| - 1]).Err?
  {
    var n := Attempts(step, cs);
    RequestsInOrder(request, cs[..n]);
    Requests(request, cs[..n])
  }

  /** When every chunk succeeds, the result is the chunk results put together
      in chunk order (and, by Attempts, every chunk is fetched). */
  lemma {:induction false} GatherAllOk(step: seq<Track> -> Result<seq<Track>>, cs: seq<seq<Track>>, outs: seq<seq<Track>>)
    requires |outs| == |cs|
    requires forall k :: 0 <= k < |cs| ==> step(cs[k]) == Ok(outs[k])
    ensures Gather(step, cs) == Ok(Flatten(outs))
    decreases |cs|
  {
    if |cs| > 0 {
      var n := |cs| - 1;
      GatherAllOk(step, cs[..n], outs[..n]);
      FlattenSnoc(outs[..n], outs[n]);
      assert outs == outs[..n] + [outs[n]];
    }
  }

  lemma {:induction false} FlattenSnoc<T>(cs: seq<seq<T>>, last: seq<T>)
    ensures Flatten(cs + [last]) == Flatten(cs) + last
    decreases |cs|
  {
    if |cs| == 0 {
      FlattenSingle(last);
    } else {
      assert (cs + [last])[1..] == cs[1..] + [last];
      FlattenSnoc(cs[1..], last);
    }
  }

  /** A failure ends the loop: later chunks change neither the outcome nor
      the number of chunks fetched. */
  lemma {:induction false} GatherStops(step: seq<Track> -> Result<seq<Track>>, cs: seq<seq<Track>>, n: int)
    requires 0 <= n <= |cs|
    requires Gather(step, cs[..n]).Err?
    ensures Gather(step, cs) == Gather(step, cs[..n])
    ensures Attempts(step, cs) == Attempts(step, cs[..n])
    decreases |cs| - n
  {
    if n < |cs| {
      assert cs[..|cs| - 1][..n] == cs[..n];
      GatherStops(step, cs[..|cs| - 1], n);
    } else {
      assert cs[..n] == cs;
    }
  }

  /** Every track the loop returns carries the playlist's title. */
  lemma {:induction false} GatherStamped(env: Services, cs: seq<seq<Track>>, title: Option<string>, limit: int, offset: int)
    requires Gather(Step(env, title, limit, offset), cs).Ok?
    ensures forall i :: 0 <= i < |Gather(Step(env, title, limit, offset), cs).value| ==>
      Gather(Step(env, title, limit, offset), cs).value[i].playlistName == title
    decreases |cs|
  {
    if |cs| > 0 {
      GatherStamped(env, cs[..|cs| - 1], title, limit, offset);
      ChunkStamped(env, cs[|cs| - 1], title, limit, offset);
    }
  }

  // ------------------------------------------------------ the two entries

  /** GetAsync(url, false): the check, then the resolved record as it is. */
  function Lookup(env: Services, url: string): (r: Result<Option<Playlist>>)
    ensures !UrlValid(env, url) ==> r == Err(InvalidUrl)
  {
    if !UrlValid(env, url) then Err(InvalidUrl) else Resolved(env, url)
  }

  /** What GetTracksAsync makes of the record GetAsync found: nothing for a
      null record or a missing track array, the chunk loop otherwise. */
  function TracksOf(env: Services, found: Option<Playlist>, offset: int, limit: int): (r: Result<seq<Track>>)
    ensures found.None? || found.value.tracks.None? ==> r == Ok([])
    ensures r.Ok? && found.Some? ==> forall i :: 0 <= i < |r.value| ==> r.value[i].playlistName == found.value.title
  {
    match found
    case None => Ok([])
    case Some(p) =>
      if p.tracks.None? then Ok([])
      else
        var g := Gather(Step(env, p.title, limit, offset), Batches(p.tracks.value, offset));
        if g.Ok? then GatherStamped(env, Batches(p.tracks.value, offset), p.title, limit, offset); g
        else g
  }

  /** The chunk requests that go with TracksOf. */
  function TracksOfSent(env: Services, found: Option<Playlist>, offset: int, limit: int): seq<HttpRequest>
  {
    match found
    case None => []
    case Some(p) =>
      if p.tracks.None? then []
      else GatherSent(Step(env, p.title, limit, offset), Request(env, limit, offset), Batches(p.tracks.value, offset))
  }

  /** GetTracksAsync(url, offset, limit): its own check, GetAsync(url, false),
      then the chunk loop. */
  function TracksOutcome(env: Services, url: string, offset: int, limit: int): (r: Result<seq<Track>>)
    ensures !UrlValid(env, url) ==> r == Err(InvalidUrl)
  {
    if !UrlValid(env, url) then Err(InvalidUrl)
    else
      match Lookup(env, url)
      case Err(e) => Err(e)
      case Ok(found) => TracksOf(env, found, offset, limit)
  }

  /** The requests GetTracksAsync sends: the short-link probe of its own
      check, those of GetAsync(url, false), then the chunk requests. */
  function TracksSent(env: Services, url: string, offset: int, limit: int): (s: seq<HttpRequest>)
    ensures Probe(env, url) <= s
    ensures !UrlValid(env, url) ==> s == Probe(env, url)
    decreases 1
  {
    Probe(env, url)
      + if !UrlValid(env, url) then []
        else
          PlaylistSent(env, url, false)
            + match Lookup(env, url)
              case Ok(found) => TracksOfSent(env, found, offset, limit)
              case _ => []
  }

  /** For a valid URL: the probe of GetTracksAsync's own check, the probe of
      GetAsync(url, false), then the chunk requests if a record was found. */
  lemma TracksSentValid(env: Services, url: string, offset: int, limit: int)
    requires UrlValid(env, url)
    ensures PlaylistSent(env, url, false) == Probe(env, url)
    ensures TracksSent(env, url, offset, limit)
         == Probe(env, url) + (Probe(env, url)
            + (if Lookup(env, url).Ok? then TracksOfSent(env, Lookup(env, url).value, offset, limit) else []))
  {
    assert PlaylistSent(env, url, false) == Probe(env, url) + [];
  }

  /** For a valid URL GetAsync sends its probe, resolves the URL, and with
      auto-populate then does what GetTracksAsync does. */
  lemma PlaylistLogsValid(env: Services, url: string, autoPopulate: bool)
    requires UrlValid(env, url)
    ensures PlaylistSent(env, url, autoPopulate)
         == Probe(env, url) + (if autoPopulate && Resolved(env, url).Ok? then TracksSent(env, url, env.defaultOffset, env.defaultLimit) else [])
    ensures PlaylistResolves(env, url, autoPopulate)
         == [url] + (if autoPopulate && Resolved(env, url).Ok? then TracksResolves(env, url) else [])
  {
  }

  lemma AppendAssoc<T>(a: seq<T>, b: seq<T>, c: seq<T>)
    ensures (a + b) + c == a + (b + c)
  {
  }

  lemma AppendAssoc3<T>(a: seq<T>, b: seq<T>, c: seq<T>, d: seq<T>)
    ensures ((a + b) + c) + d == a + (b + (c + d))
  {
  }

  /** The URLs GetTracksAsync resolves: those of GetAsync(url, false). */
  function TracksResolves(env: Services, url: string): (r: seq<string>)
    ensures UrlValid(env, url) ==> r == [url]
    ensures !UrlValid(env, url) ==> r == []
    decreases 1
  {
    if UrlValid(env, url) then PlaylistResolves(env, url, false) else []
  }

  /** The auto-populate step of GetAsync: the fetched list replaces the
      track array, every track stamped with the title; a null record fails
      here, once the list has been fetched. */
  function Populated(doc: Option<Playlist>, tracks: Result<seq<Track>>): (r: Result<Option<Playlist>>)
    ensures r.Ok? ==> tracks.Ok? && doc.Some? && r.value.Some?
    ensures r.Ok? ==> r.value.value.title == doc.value.title
    ensures r.Ok? ==> r.value.value.tracks == Some(Stamp(tracks.value, doc.value.title))
  {
    match tracks
    case Err(e) => Err(e)
    case Ok(ts) =>
      if doc.None? then Err(NullReference)
      else Ok(Some(doc.value.(tracks := Some(Stamp(ts, doc.value.title)))))
  }

  /** GetAsync(url, autoPopulate). */
  function PlaylistOutcome(env: Services, url: string, autoPopulate: bool): (r: Result<Option<Playlist>>)
    ensures !UrlValid(env, url) ==> r == Err(InvalidUrl)
  {
    if !UrlValid(env, url) then Err(InvalidUrl)
    else
      match Resolved(env, url)
      case Err(e) => Err(e)
      case Ok(doc) =>
        if !autoPopulate then Ok(doc)
        else Populated(doc, TracksOutcome(env, url, env.defaultOffset, env.defaultLimit))
  }

  /** The requests GetAsync sends: its probe, then those of GetTracksAsync. */
  function PlaylistSent(env: Services, url: string, autoPopulate: bool): (s: seq<HttpRequest>)
    ensures Probe(env, url) <= s
    ensures !autoPopulate ==> s == Probe(env, url)
    decreases if autoPopulate then 2 else 0
  {
    Probe(env, url)
      + if UrlValid(env, url) && autoPopulate && Resolved(env, url).Ok?
        then TracksSent(env, url, env.defaultOffset, env.defaultLimit)
        else []
  }

  /** The URLs GetAsync resolves: its own, then those of GetTracksAsync. */
  function PlaylistResolves(env: Services, url: string, autoPopulate: bool): (r: seq<string>)
    ensures |r| <= 2 && (!autoPopulate ==> |r| <= 1)
    ensures r == [] <==> !UrlValid(env, url)
    ensures forall i :: 0 <= i < |r| ==> r[i] == url
    decreases if autoPopulate then 2 else 0
  {
    if !UrlValid(env, url) then []
    else [url] + if autoPopulate && Resolved(env, url).Ok? then TracksResolves(env, url) else []
  }

  // -------------------------------------------------------------- the laws

  /** An invalid URL fails before anything is resolved or any track is
      requested; only the short-link probe may have gone out. */
  lemma InvalidUrlFailsFast(env: Services, url: string, offset: int, limit: int, autoPopulate: bool)
    requires !UrlValid(env, url)
    ensures TracksOutcome(env, url, offset, limit) == Err(InvalidUrl)
    ensures PlaylistOutcome(env, url, autoPopulate) == Err(InvalidUrl)
    ensures TracksSent(env, url, offset, limit) == Probe(env, url)
    ensures PlaylistSent(env, url, autoPopulate) == Probe(env, url)
    ensures TracksResolves(env, url) == [] && PlaylistResolves(env, url, autoPopulate) == []
  {
  }

  /** A playlist without a track array (or a null document) gives an empty
      list and sends no track request. */
  lemma NoTrackArrayNoRequests(env: Services, url: string, offset: int, limit: int)
    requires UrlValid(env, url)
    requires Resolved(env, url) == Ok(None) || (Resolved(env, url).Ok? && Resolved(env, url).value.Some? && Resolved(env, url).value.value.tracks.None?)
    ensures TracksOutcome(env, url, offset, limit) == Ok([])
    ensures TracksSent(env, url, offset, limit) == Probe(env, url) + Probe(env, url)
  {
  }

  /** Every track GetTracksAsync returns carries the playlist's title. */
  lemma TracksCarryTitle(env: Services, url: string, offset: int, limit: int, p: Playlist)
    requires UrlValid(env, url) && Resolved(env, url) == Ok(Some(p))
    requires TracksOutcome(env, url, offset, limit).Ok?
    ensures forall i :: 0 <= i < |TracksOutcome(env, url, offset, limit).value| ==>
      TracksOutcome(env, url, offset, limit).value[i].playlistName == p.title
  {
    if p.tracks.Some? {
      GatherStamped(env, Batches(p.tracks.value, offset), p.title, limit, offset);
    }
  }

  /** The server answers honestly for `ts`: the request for each chunk of
      ids is answered with exactly those tracks, in some order. */
  predicate HonestFor(env: Services, ts: seq<Track>, limit: int, offset: int)
  {
    forall c | c in Batches(ts, offset) :: AnsweredHonestly(env, c, limit, offset)
  }

  /** The request for chunk `c` succeeds and is answered with exactly the
      chunk's ids, in some order. */
  predicate AnsweredHonestly(env: Services, c: seq<Track>, limit: int, offset: int)
  {
    var answer := env.transport(ChunkRequest(env, c, limit, offset));
    && IsSuccessStatus(answer.status)
    && env.json.trackList(answer.body).Parsed?
    && multiset(Ids(env.json.trackList(answer.body).value)) == multiset(Ids(c))
  }

  /** The chunk loop over an honestly answered, repeat-free track list
      succeeds with the windowed ids in order, one request per chunk. */
  lemma HonestGather(env: Services, ts: seq<Track>, title: Option<string>, limit: int, offset: int)
    requires NoDup(Ids(ts)) && HonestFor(env, ts, limit, offset)
    ensures Gather(Step(env, title, limit, offset), Batches(ts, offset)).Ok?
    ensures Ids(Gather(Step(env, title, limit, offset), Batches(ts, offset)).value) == Ids(Window(ts, offset))
    ensures |GatherSent(Step(env, title, limit, offset), Request(env, limit, offset), Batches(ts, offset))|
         == |Batches(ts, offset)|
  {
    var cs := Batches(ts, offset);
    var step := Step(env, title, limit, offset);
    NoDupWindow(ts, offset);
    forall k | 0 <= k < |cs|
      ensures step(cs[k]).Ok? && Ids(step(cs[k]).value) == Ids(cs[k])
    {
      HonestChunk(env, ts, k, title, limit, offset);
    }
    var outs := seq(|cs|, k requires 0 <= k < |cs| => step(cs[k]).value);
    GatherAllOk(step, cs, outs);
    IdsFlatten(outs, cs);
  }

  /** End to end: when the playlist's ids are distinct and the server answers
      every chunk honestly, GetTracksAsync returns exactly the windowed
      tracks' ids in playlist order, one request per 50 ids. */
  lemma HonestServerKeepsPlaylistOrder(env: Services, url: string, offset: int, limit: int, p: Playlist)
    requires UrlValid(env, url) && Resolved(env, url) == Ok(Some(p)) && p.tracks.Some?
    requires NoDup(Ids(p.tracks.value))
    requires HonestFor(env, p.tracks.value, limit, offset)
    ensures TracksOutcome(env, url, offset, limit).Ok?
    ensures Ids(TracksOutcome(env, url, offset, limit).value) == Ids(Window(p.tracks.value, offset))
    ensures |TracksSent(env, url, offset, limit)|
         == 2 * |Probe(env, url)| + (|Window(p.tracks.value, offset)| + BatchSize - 1) / BatchSize
  {
    var ts := p.tracks.value;
    var step := Step(env, p.title, limit, offset);
    HonestGather(env, ts, p.title, limit, offset);
    assert Lookup(env, url) == Ok(Some(p));
    assert TracksOutcome(env, url, offset, limit) == Gather(step, Batches(ts, offset));
    TracksSentValid(env, url, offset, limit);
    assert TracksOfSent(env, Some(p), offset, limit) == GatherSent(step, Request(env, limit, offset), Batches(ts, offset));
  }

  /** Ids(Window(ts)) has no repeats when Ids(ts) has none. */
  lemma NoDupWindow(ts: seq<Track>, offset: int)
    requires NoDup(Ids(ts))
    ensures NoDup(Ids(Window(ts, offset)))
  {
    var w := Window(ts, offset);
    var d := |ts| - |w|;
    assert Ids(w) == Ids(ts)[d..];
    NoDupSuffix(Ids(ts), d);
  }

  /** The ids of a chunk have no repeats when the window's have none. */
  lemma {:induction false} NoDupChunk(cs: seq<seq<Track>>, k: int)
    requires 0 <= k < |cs| && NoDup(Ids(Flatten(cs)))
    ensures NoDup(Ids(cs[k]))
    decreases |cs|
  {
    IdsConcat(cs[0], Flatten(cs[1..]));
    if k == 0 {
      var a := Ids(cs[0]);
      forall i, j | 0 <= i < j < |a| ensures a[i] != a[j] {
        assert a[i] == Ids(Flatten(cs))[i] && a[j] == Ids(Flatten(cs))[j];
      }
    } else {
      var b := Ids(Flatten(cs[1..]));
      var o := |cs[0]|;
      forall i, j | 0 <= i < j < |b| ensures b[i] != b[j] {
        assert b[i] == Ids(Flatten(cs))[i + o] && b[j] == Ids(Flatten(cs))[j + o];
      }
      NoDupChunk(cs[1..], k - 1);
    }
  }

  /** One honest chunk comes back as the chunk's own ids in chunk order. */
  lemma HonestChunk(env: Services, ts: seq<Track>, k: int, title: Option<string>, limit: int, offset: int)
    requires HonestFor(env, ts, limit, offset) && NoDup(Ids(Window(ts, offset)))
    requires 0 <= k < |Batches(ts, offset)|
    ensures ChunkOutcome(env, Batches(ts, offset)[k], title, limit, offset).Ok?
    ensures Ids(ChunkOutcome(env, Batches(ts, offset)[k], title, limit, offset).value) == Ids(Batches(ts, offset)[k])
  {
    var cs := Batches(ts, offset);
    var c := cs[k];
    assert c in cs;
    NoDupChunk(cs, k);
    HonestAnswer(env, c, title, limit, offset);
  }

  /** An honest answer to a chunk without repeated ids comes back in the
      chunk's own order. */
  lemma HonestAnswer(env: Services, c: seq<Track>, title: Option<string>, limit: int, offset: int)
    requires NoDup(Ids(c)) && AnsweredHonestly(env, c, limit, offset)
    ensures ChunkOutcome(env, c, title, limit, offset).Ok?
    ensures Ids(ChunkOutcome(env, c, title, limit, offset).value) == Ids(c)
  {
    var ids := Ids(c);
    var answer := env.transport(ChunkRequest(env, c, limit, offset));
    var got := env.json.trackList(answer.body).value;
    assert ChunkOutcome(env, c, title, limit, offset) == Ok(OrderByIndex(ids, Stamp(got, title)));
    StampTwice(got, title, title);
    RestoresRequestOrder(ids, Stamp(got, title));
  }

  /** The ids of chunk results put together are the chunks' ids put together. */
  lemma {:induction false} IdsFlatten(outs: seq<seq<Track>>, cs: seq<seq<Track>>)
    requires |outs| == |cs|
    requires forall k :: 0 <= k < |cs| ==> Ids(outs[k]) == Ids(cs[k])
    ensures Ids(Flatten(outs)) == Ids(Flatten(cs))
    decreases |cs|
  {
    if |cs| > 0 {
      IdsFlatten(outs[1..], cs[1..]);
      IdsConcat(outs[0], Flatten(outs[1..]));
      IdsConcat(cs[0], Flatten(cs[1..]));
    }
  }

  /** With auto-populate on, the returned playlist's track array is the list
      GetTracksAsync gives for the default window, every track stamped with
      the title; with it off, the resolved record comes back untouched. */
  lemma AutoPopulateReplacesTracks(env: Services, url: string, p: Playlist)
    requires UrlValid(env, url) && Resolved(env, url) == Ok(Some(p))
    ensures PlaylistOutcome(env, url, false) == Ok(Some(p))
    ensures TracksOutcome(env, url, env.defaultOffset, env.defaultLimit).Ok? ==>
      var q := PlaylistOutcome(env, url, true);
      && q.Ok? && q.value.Some?
      && q.value.value.title == p.title
      && q.value.value.tracks == Some(TracksOutcome(env, url, env.defaultOffset, env.defaultLimit).value)
  {
    var t := TracksOutcome(env, url, env.defaultOffset, env.defaultLimit);
    if t.Ok? {
      TracksCarryTitle(env, url, env.defaultOffset, env.defaultLimit, p);
      assert Stamp(t.value, p.title) == t.value;
    }
  }

  /** A null playlist document: GetAsync without auto-populate returns no
      playlist, with it fails on the null reference once the (empty) track
      fetch is done. */
  lemma NullPlaylist(env: Services, url: string)
    requires UrlValid(env, url) && Resolved(env, url) == Ok(None)
    ensures PlaylistOutcome(env, url, false) == Ok(None)
    ensures PlaylistOutcome(env, url, true) == Err(NullReference)
  {
  }

  // -------------------------------------------------------------- the class

  class PlaylistClient {
    const http: HttpClient
    const endpoint: SoundcloudEndpoint
    const json: PlaylistJson
    const uri: UriLib
    const clientId: string
    const defaultOffset: int
    const defaultLimit: int

    constructor (http: HttpClient, endpoint: SoundcloudEndpoint, json: PlaylistJson, uri: UriLib,
                 clientId: string, defaultOffset: int, defaultLimit: int)
      ensures this.http == http && this.endpoint == endpoint && this.json == json && this.uri == uri
      ensures this.clientId == clientId && this.defaultOffset == defaultOffset && this.defaultLimit == defaultLimit
    {
      this.http := http;
      this.endpoint := endpoint;
      this.json := json;
      this.uri := uri;
      this.clientId := clientId;
      this.defaultOffset := defaultOffset;
      this.defaultLimit := defaultLimit;
    }

    /** The outside answers this client gets. */
    function Env(): Services
    {
      Services(http.transport, http.chromeUserAgent, endpoint.resolver, json, uri,
               clientId, defaultOffset, defaultLimit)
    }

    /** IsUrlValidAsync(url). */
    method IsUrlValid(url: string) returns (valid: bool)
      modifies http`sent
      ensures valid == UrlValid(Env(), url)
      ensures http.sent == old(http.sent) + Probe(Env(), url)
    {
      var target := url;
      if IsShortLink(url) {
        var request := new RequestMessage(url);
        var response := http.Send(request);
        target := response.finalUri;
      }
      target := Lower(target);
      valid := uri.isWellFormedAbsolute(target) && MatchesPlaylistPattern(target);
    }

    /** GetAsync(url, autoPopulateAllTracks). */
    method Get(url: string, autoPopulate: bool) returns (r: Result<Option<Playlist>>)
      modifies http`sent, endpoint`resolved
      ensures r == PlaylistOutcome(Env(), url, autoPopulate)
      ensures http.sent == old(http.sent) + PlaylistSent(Env(), url, autoPopulate)
      ensures endpoint.resolved == old(endpoint.resolved) + PlaylistResolves(Env(), url, autoPopulate)
      decreases if autoPopulate then 2 else 0
    {
      ghost var env, sent0, resolved0 := Env(), http.sent, endpoint.resolved;
      var valid := IsUrlValid(url);
      if !valid {
        return Err(InvalidUrl);
      }
      PlaylistLogsValid(env, url, autoPopulate);
      ghost var probe := Probe(env, url);
      assert probe + [] == probe && [url] + [] == [url];
      var resolvedJson := endpoint.ResolveUrl(url);
      if resolvedJson.Err? {
        return Err(resolvedJson.error);
      }
      var playlist: Option<Playlist>;
      match json.playlist(resolvedJson.value) {
        case Malformed => return Err(MalformedResponse);
        case Null => playlist := None;
        case Parsed(p) => playlist := Some(p);
      }
      assert Resolved(Env(), url) == Ok(playlist);
      if autoPopulate {
        var tracks := GetTracks(url, defaultOffset, defaultLimit);
        AppendAssoc(sent0, probe, TracksSent(env, url, defaultOffset, defaultLimit));
        AppendAssoc(resolved0, [url], TracksResolves(env, url));
        if tracks.Err? {
          return Err(tracks.error);
        }
        if playlist.None? {
          return Err(NullReference);
        }
        var stamped := StampCopy(tracks.value, playlist.value.title);
        playlist := Some(playlist.value.(tracks := Some(stamped)));
      }
      r := Ok(playlist);
    }

    /** GetTracksAsync(url, offset, limit). */
    method GetTracks(url: string, offset: int, limit: int) returns (r: Result<seq<Track>>)
      modifies http`sent, endpoint`resolved
      ensures r == TracksOutcome(Env(), url, offset, limit)
      ensures http.sent == old(http.sent) + TracksSent(Env(), url, offset, limit)
      ensures endpoint.resolved == old(endpoint.resolved) + TracksResolves(Env(), url)
      decreases 1
    {
      ghost var env, sent0 := Env(), http.sent;
      var valid := IsUrlValid(url);
      if !valid {
        return Err(InvalidUrl);
      }
      ghost var probe := Probe(env, url);
      TracksSentValid(env, url, offset, limit);
      var found := Get(url, false);
      assert found == Lookup(env, url);
      assert http.sent == (sent0 + probe) + probe;
      if found.Err? {
        AppendAssoc(sent0, probe, probe);
        assert probe + [] == probe;
        return Err(found.error);
      }
      r := FetchFound(found.value, offset, limit);
      AppendAssoc3(sent0, probe, probe, TracksOfSent(env, found.value, offset, limit));
    }

    /** The part of GetTracksAsync after GetAsync: no request for a null
        record or a missing track array, the chunk loop otherwise. */
    method FetchFound(found: Option<Playlist>, offset: int, limit: int) returns (r: Result<seq<Track>>)
      modifies http`sent
      ensures r == TracksOf(Env(), found, offset, limit)
      ensures http.sent == old(http.sent) + TracksOfSent(Env(), found, offset, limit)
    {
      if found.None? || found.value.tracks.None? {
        return Ok([]);
      }
      var playlist := found.value;
      var tracks := Window(playlist.tracks.value, offset);
      r := FetchAll(Chunks(tracks, BatchSize), playlist.title, limit, offset);
    }

    /** The chunk loop of GetTracksAsync: every chunk in order, stopping at
        the first failure, the results appended to one list. */
    method FetchAll(chunks: seq<seq<Track>>, title: Option<string>, limit: int, offset: int) returns (r: Result<seq<Track>>)
      modifies http`sent
      ensures r == Gather(Step(Env(), title, limit, offset), chunks)
      ensures http.sent == old(http.sent) + GatherSent(Step(Env(), title, limit, offset), Request(Env(), limit, offset), chunks)
    {
      ghost var step, request := Step(Env(), title, limit, offset), Request(Env(), limit, offset);
      var list: seq<Track> := [];
      var i := 0;
      while i < |chunks|
        invariant 0 <= i <= |chunks|
        invariant Gather(step, chunks[..i]) == Ok(list)
        invariant http.sent == old(http.sent) + Requests(request, chunks[..i])
      {
        assert chunks[..i + 1][..i] == chunks[..i];
        RequestsSnoc(request, chunks, i);
        AppendAssoc(old(http.sent), Requests(request, chunks[..i]), [request(chunks[i])]);
        var tracks := FetchChunk(chunks[i], title, limit, offset);
        if tracks.Err? {
          GatherStops(step, chunks, i + 1);
          return Err(tracks.error);
        }
        list := list + tracks.value;
        i := i + 1;
      }
      assert chunks[..i] == chunks;
      r := Ok(list);
    }

    /** One round of the chunk loop: the request for the chunk's ids, the
        answer deserialized, every track stamped, then put in request order. */
    method FetchChunk(chunk: seq<Track>, title: Option<string>, limit: int, offset: int) returns (r: Result<seq<Track>>)
      modifies http`sent
      ensures r == Step(Env(), title, limit, offset)(chunk)
      ensures http.sent == old(http.sent) + [Request(Env(), limit, offset)(chunk)]
    {
      var ids := Ids(chunk);
      var response := http.ExecuteGet(TracksUrl(ids, limit, offset, clientId));
      if response.Err? {
        return Err(response.error);
      }
      match json.trackList(response.value) {
        case Malformed => return Err(MalformedResponse);
        case Null => return Err(NullReference);
        case Parsed(ts) =>
          var stamped := StampCopy(ts, title);
          r := Ok(OrderByIndex(ids, stamped));
      }
    }

    /** The tracks copied into a fresh array and stamped there in place. */
    static method StampCopy(ts: seq<Track>, title: Option<string>) returns (r: seq<Track>)
      ensures r == Stamp(ts, title)
    {
      var a := new Track[|ts|](k requires 0 <= k < |ts| => ts[k]);
      assert a[..] == ts;
      StampAll(a, title);
      r := a[..];
    }
  }
}
