/** UserClient: the user-URL rule, GetAsync, and the four collection
    requests under `users/{id}`. Each collection method is a guard on the
    limit, GetAsync, one GET, and the `collection` field of the answer. The
    methods keep no state, so they are functions of the outside answers,
    with the resolve calls and the requests they make given beside them. */
module Users {
  import opened Common
  import opened Text
  import opened Records
  import opened HttpExt
  import opened UrlPatterns
  import opened Query

  /** The deserialization steps, taken as given. */
  datatype UserJson = UserJson(
    user: string -> Doc<User>,                    // Deserialize<User>
    collection: string -> Doc<string>,            // JsonNode.Parse(_)!["collection"]!.ToString()
    tracks: string -> Doc<seq<Track>>,            // Deserialize<List<TrackInformation>>
    playlists: string -> Doc<seq<Playlist>>)      // Deserialize<List<PlaylistInformation>>

  /** Everything the client gets from outside: the transport and the Chrome
      User-Agent of its HttpClient, the endpoint's resolver and client id,
      the JSON and Uri library calls, and the limit bounds. */
  datatype UserServices = UserServices(
    transport: HttpRequest -> HttpResponse,
    userAgent: string,
    resolver: string -> Result<string>,
    json: UserJson,
    uri: UriLib,
    clientId: string,
    minLimit: int,
    maxLimit: int)

  // ---------------------------------------------------------- the URL rule

  /** IsUrlValid(url): on the lower-cased string, a well-formed absolute
      URI on soundcloud.com or m.soundcloud.com with exactly two path
      segments (the root "/" and the user name). */
  predicate IsUrlValid(uri: UriLib, url: string)
    ensures !uri.isWellFormedAbsolute(Lower(url)) ==> !IsUrlValid(uri, url)
    ensures IsUrlValid(uri, url) ==>
      uri.host(Lower(url)) in {"soundcloud.com", "m.soundcloud.com"} && uri.segmentCount(Lower(url)) == 2
  {
    var u := Lower(url);
    && uri.isWellFormedAbsolute(u)
    && (uri.host(u) == "soundcloud.com" || uri.host(u) == "m.soundcloud.com")
    && uri.segmentCount(u) == 2
  }

  /** The rule does not depend on case: a URL and its lower-case form are
      classified alike. */
  lemma IsUrlValidIgnoresCase(uri: UriLib, url: string)
    ensures IsUrlValid(uri, url) <==> IsUrlValid(uri, Lower(url))
  {
    LowerIdempotent(url);
  }

  /** A host other than the two accepted ones is rejected, whatever the path. */
  lemma OtherHostInvalid(uri: UriLib, url: string)
    requires uri.host(Lower(url)) != "soundcloud.com" && uri.host(Lower(url)) != "m.soundcloud.com"
    ensures !IsUrlValid(uri, url)
  {
  }

  // ---------------------------------------------------------------- GetAsync

  /** GetAsync(url): the check, one resolve, the user document; a document
      that is JSON null gives no user. */
  function GetUser(env: UserServices, url: string): (r: Result<Option<User>>)
    ensures !IsUrlValid(env.uri, url) ==> r == Err(InvalidUrl)
    ensures r.Ok? ==> env.resolver(url).Ok? && env.json.user(env.resolver(url).value) != Malformed
    ensures r.Ok? ==> (r.value.None? <==> env.json.user(env.resolver(url).value) == Null)
    ensures IsUrlValid(env.uri, url) && env.resolver(url).Err? ==> r == Err(env.resolver(url).error)
    ensures IsUrlValid(env.uri, url) && env.resolver(url).Ok? && env.json.user(env.resolver(url).value).Parsed?
      ==> r == Ok(Some(env.json.user(env.resolver(url).value).value))
  {
    if !IsUrlValid(env.uri, url) then Err(InvalidUrl)
    else
      match env.resolver(url)
      case Err(e) => Err(e)
      case Ok(text) =>
        match env.json.user(text)
        case Malformed => Err(MalformedResponse)
        case Null => Ok(None)
        case Parsed(u) => Ok(Some(u))
  }

  /** The URLs GetAsync resolves: its own, unless the check fails first. */
  function UserResolves(env: UserServices, url: string): (r: seq<string>)
    ensures |r| <= 1
    ensures r == [] <==> !IsUrlValid(env.uri, url)
    ensures forall i :: 0 <= i < |r| ==> r[i] == url
  {
    if IsUrlValid(env.uri, url) then [url] else []
  }

  /** An invalid user URL fails before anything is resolved. */
  lemma InvalidUserUrlFailsFast(env: UserServices, url: string)
    requires !IsUrlValid(env.uri, url)
    ensures GetUser(env, url) == Err(InvalidUrl) && UserResolves(env, url) == []
  {
  }

  // ------------------------------------------------------ collection URLs

  /** The four collections the client reads. */
  datatype Collection = TopTracks | PopularTracks | Playlists | Albums

  /** The sub-path of `users/{id}` each method asks for. */
  function SubPath(c: Collection): (p: string)
    ensures 1 <= |p| && '?' !in p
  {
    match c
    case TopTracks => "toptracks"
    case PopularTracks => "tracks"
    case Playlists => "playlists"
    case Albums => "albums"
  }

  /** The four methods ask for four different collections. */
  lemma SubPathsDistinct(a: Collection, b: Collection)
    requires a != b
    ensures SubPath(a) != SubPath(b)
  {
    var p, q := SubPath(a), SubPath(b);
    assert |p| != |q| || p[0] != q[0];
  }

  const UsersEndpoint := "https://api-v2.soundcloud.com/users/"

  /** The address of one collection request. */
  function CollectionUrl(id: int, c: Collection, offset: int, limit: int, clientId: string): (u: string)
    ensures UsersEndpoint <= u
  {
    Param(UsersEndpoint, IntToString(id),
      Param("/", SubPath(c),
        Param("?offset=", IntToString(offset),
          Param("&limit=", IntToString(limit), "&client_id=" + clientId))))
  }

  /** Reads the user id, the sub-path, the offset and the limit back out of
      a collection request address. */
  function ReadCollectionQuery(u: string): Option<(int, string, int, int)>
  {
    match ReadParam(u, UsersEndpoint, '/')
    case None => None
    case Some((a, r1)) =>
      match ReadParam(r1, "/", '?')
      case None => None
      case Some((sub, r2)) =>
        match ReadParam(r2, "?offset=", '&')
        case None => None
        case Some((b, r3)) =>
          match ReadParam(r3, "&limit=", '&')
          case None => None
          case Some((c, _)) =>
            match (ParseInt(a), ParseInt(b), ParseInt(c))
            case (Some(x), Some(y), Some(z)) => Some((x, sub, y, z))
            case _ => None
  }

  /** A collection request carries the user's id, the method's own
      sub-path, and the caller's offset and limit unchanged. */
  lemma CollectionUrlRoundTrip(id: int, c: Collection, offset: int, limit: int, clientId: string)
    ensures ReadCollectionQuery(CollectionUrl(id, c, offset, limit, clientId)) == Some((id, SubPath(c), offset, limit))
  {
    var tail4 := "&client_id=" + clientId;
    var tail3 := Param("&limit=", IntToString(limit), tail4);
    var tail2 := Param("?offset=", IntToString(offset), tail3);
    var tail1 := Param("/", SubPath(c), tail2);
    IntToStringAvoids(id, '/');
    ReadParamOf(UsersEndpoint, IntToString(id), tail1, '/');
    ReadParamOf("/", SubPath(c), tail2, '?');
    IntToStringAvoids(offset, '&');
    ReadParamOf("?offset=", IntToString(offset), tail3, '&');
    IntToStringAvoids(limit, '&');
    ReadParamOf("&limit=", IntToString(limit), tail4, '&');
    IntToStringRoundTrip(id);
    IntToStringRoundTrip(offset);
    IntToStringRoundTrip(limit);
  }

  /** Two methods never share an address. */
  lemma CollectionUrlsDistinct(id: int, a: Collection, b: Collection, offset: int, limit: int, clientId: string)
    requires a != b
    ensures CollectionUrl(id, a, offset, limit, clientId) != CollectionUrl(id, b, offset, limit, clientId)
  {
    CollectionUrlRoundTrip(id, a, offset, limit, clientId);
    CollectionUrlRoundTrip(id, b, offset, limit, clientId);
    SubPathsDistinct(a, b);
  }

  // ------------------------------------------------ the collection methods

  /** The limit guard of every collection method: both ends inclusive. */
  predicate LimitInRange(env: UserServices, limit: int)
    ensures env.maxLimit < env.minLimit ==> !LimitInRange(env, limit)
  {
    env.minLimit <= limit <= env.maxLimit
  }

  /** The request a collection method sends for user `u`. */
  function CollectionRequest(env: UserServices, u: User, c: Collection, offset: int, limit: int): HttpRequest
  {
    GetRequest(CollectionUrl(u.id, c, offset, limit, env.clientId), env.userAgent)
  }

  /** What the answer to the collection request holds in its `collection`
      field, as text; a missing field or a null document is a null reference. */
  function Envelope(env: UserServices, u: User, c: Collection, offset: int, limit: int): (r: Result<string>)
    ensures r.Ok? ==> IsSuccessStatus(env.transport(CollectionRequest(env, u, c, offset, limit)).status)
    ensures r.Ok? ==> env.json.collection(env.transport(CollectionRequest(env, u, c, offset, limit)).body) == Parsed(r.value)
  {
    match GetOutcome(env.transport, env.userAgent, CollectionUrl(u.id, c, offset, limit, env.clientId))
    case Err(e) => Err(e)
    case Ok(body) =>
      match env.json.collection(body)
      case Malformed => Err(MalformedResponse)
      case Null => Err(NullReference)
      case Parsed(data) => Ok(data)
  }

  /** One collection method: the limit guard, GetAsync, the request for the
      user's collection, then the list deserialized from its `collection`
      field (a JSON null list is returned as no list). */
  function Listing<T>(env: UserServices, url: string, c: Collection, offset: int, limit: int,
                      parse: string -> Doc<seq<T>>): (r: Result<Option<seq<T>>>)
    ensures !LimitInRange(env, limit) ==> r == Err(InvalidLimit)
    ensures LimitInRange(env, limit) && !IsUrlValid(env.uri, url) ==> r == Err(InvalidUrl)
    ensures LimitInRange(env, limit) && GetUser(env, url) == Ok(None) ==> r == Err(NullReference)
    ensures r.Ok? ==> LimitInRange(env, limit) && GetUser(env, url).Ok? && GetUser(env, url).value.Some?
    ensures r.Ok? ==>
      var data := Envelope(env, GetUser(env, url).value.value, c, offset, limit);
      data.Ok? && parse(data.value) == (if r.value.Some? then Parsed(r.value.value) else Null)
  {
    if !LimitInRange(env, limit) then Err(InvalidLimit)
    else
      match GetUser(env, url)
      case Err(e) => Err(e)
      case Ok(None) => Err(NullReference)
      case Ok(Some(u)) =>
        match Envelope(env, u, c, offset, limit)
        case Err(e) => Err(e)
        case Ok(data) =>
          match parse(data)
          case Malformed => Err(MalformedResponse)
          case Null => Ok(None)
          case Parsed(xs) => Ok(Some(xs))
  }

  /** The URLs a collection method resolves: none when the limit is out of
      range, otherwise those of GetAsync. */
  function ListingResolves(env: UserServices, url: string, limit: int): (r: seq<string>)
    ensures |r| <= 1
    ensures !LimitInRange(env, limit) ==> r == []
    ensures forall i :: 0 <= i < |r| ==> r[i] == url
  {
    if LimitInRange(env, limit) then UserResolves(env, url) else []
  }

  /** The requests a collection method sends: one, once the limit, the URL
      and the user document have passed. */
  function ListingSent(env: UserServices, url: string, c: Collection, offset: int, limit: int): (r: seq<HttpRequest>)
    ensures |r| <= 1
    ensures |r| == 1 <==> LimitInRange(env, limit) && GetUser(env, url).Ok? && GetUser(env, url).value.Some?
    ensures |r| == 1 ==> UsersEndpoint <= r[0].url
  {
    if !LimitInRange(env, limit) then []
    else
      match GetUser(env, url)
      case Ok(Some(u)) => [CollectionRequest(env, u, c, offset, limit)]
      case _ => []
  }

  /** GetTracksAsync: the user's `toptracks`. */
  function GetTracks(env: UserServices, url: string, offset: int, limit: int): Result<Option<seq<Track>>>
  {
    Listing(env, url, TopTracks, offset, limit, env.json.tracks)
  }

  /** GetPopularTracksAsync: the user's `tracks`. */
  function GetPopularTracks(env: UserServices, url: string, offset: int, limit: int): Result<Option<seq<Track>>>
  {
    Listing(env, url, PopularTracks, offset, limit, env.json.tracks)
  }

  /** GetPlaylistsAsync: the user's `playlists`. */
  function GetPlaylists(env: UserServices, url: string, offset: int, limit: int): Result<Option<seq<Playlist>>>
  {
    Listing(env, url, Playlists, offset, limit, env.json.playlists)
  }

  /** GetAlbumsAsync: the user's `albums`. */
  function GetAlbums(env: UserServices, url: string, offset: int, limit: int): Result<Option<seq<Playlist>>>
  {
    Listing(env, url, Albums, offset, limit, env.json.playlists)
  }

  // ------------------------------------------------------------- the laws

  /** A limit outside [minLimit, maxLimit] fails first: nothing is resolved
      and no request goes out. */
  lemma InvalidLimitFailsFast<T>(env: UserServices, url: string, c: Collection, offset: int, limit: int,
                                 parse: string -> Doc<seq<T>>)
    requires limit < env.minLimit || env.maxLimit < limit
    ensures Listing(env, url, c, offset, limit, parse) == Err(InvalidLimit)
    ensures ListingResolves(env, url, limit) == [] && ListingSent(env, url, c, offset, limit) == []
  {
  }

  /** Both ends of the limit range are accepted: the call goes on to GetAsync. */
  lemma LimitBoundsInclusive(env: UserServices, url: string)
    requires env.minLimit <= env.maxLimit
    ensures LimitInRange(env, env.minLimit) && LimitInRange(env, env.maxLimit)
    ensures ListingResolves(env, url, env.minLimit) == UserResolves(env, url)
    ensures ListingResolves(env, url, env.maxLimit) == UserResolves(env, url)
  {
  }

  /** With a valid limit, an invalid URL fails before any resolve or request. */
  lemma InvalidUrlSendsNothing<T>(env: UserServices, url: string, c: Collection, offset: int, limit: int,
                                  parse: string -> Doc<seq<T>>)
    requires LimitInRange(env, limit) && !IsUrlValid(env.uri, url)
    ensures Listing(env, url, c, offset, limit, parse) == Err(InvalidUrl)
    ensures ListingResolves(env, url, limit) == [] && ListingSent(env, url, c, offset, limit) == []
  {
  }

  /** Once the user is found, exactly one request goes out, to the method's
      own sub-path of that user, with the caller's offset and limit, and
      the returned list is the one deserialized from its `collection` field. */
  lemma OneRequestPerCall<T>(env: UserServices, url: string, c: Collection, offset: int, limit: int,
                             parse: string -> Doc<seq<T>>, u: User)
    requires LimitInRange(env, limit) && GetUser(env, url) == Ok(Some(u))
    ensures ListingResolves(env, url, limit) == [url]
    ensures |ListingSent(env, url, c, offset, limit)| == 1
    ensures ReadCollectionQuery(ListingSent(env, url, c, offset, limit)[0].url) == Some((u.id, SubPath(c), offset, limit))
    ensures ListingSent(env, url, c, offset, limit)[0].headers == [Header(UserAgent, env.userAgent)]
  {
    CollectionUrlRoundTrip(u.id, c, offset, limit, env.clientId);
  }

  /** A successful answer whose `collection` field deserializes to a list
      gives exactly that list. */
  lemma ParsedCollectionReturned<T>(env: UserServices, url: string, c: Collection, offset: int, limit: int,
                                    parse: string -> Doc<seq<T>>, u: User, data: string, xs: seq<T>)
    requires LimitInRange(env, limit) && GetUser(env, url) == Ok(Some(u))
    requires Envelope(env, u, c, offset, limit) == Ok(data) && parse(data) == Parsed(xs)
    ensures Listing(env, url, c, offset, limit, parse) == Ok(Some(xs))
  {
  }
}
