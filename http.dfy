/** HttpExtensions: the one place where requests leave the library. A request
    gets a browser User-Agent unless it already has one, is sent, and the
    answer is classified: 429 is the rate-limit failure, any other status
    outside 2xx a generic failure carrying the code, and 2xx gives the body
    (or, for the file-size probe, the Content-Length). */
module HttpExt {
  import opened Common
  import opened Text

  datatype Header = Header(name: string, value: string)

  /** A request as it goes on the wire: its URI and its headers in order. */
  datatype HttpRequest = HttpRequest(url: string, headers: seq<Header>)

  /** What the transport answers: the status code, the body text, the
      Content-Length header if any, and the request URI after redirects. */
  datatype HttpResponse = HttpResponse(status: int, body: string, contentLength: Option<int>, finalUri: string)

  const UserAgent := "User-Agent"
  const TooManyRequests := 429

  /** Header names compare without regard to case. */
  predicate SameName(a: string, b: string) { Lower(a) == Lower(b) }

  /** HttpHeaders.Contains(name). */
  predicate HasHeader(hs: seq<Header>, name: string)
  {
    exists k :: 0 <= k < |hs| && SameName(hs[k].name, name)
  }

  /** Contains does not care how the name it is asked about is written. */
  lemma HasHeaderIgnoresCase(hs: seq<Header>, name: string)
    ensures HasHeader(hs, name) <==> HasHeader(hs, Lower(name))
  {
    LowerIdempotent(name);
  }

  /** The header step of ExecuteAsync: a User-Agent is added only when none
      is present. Whatever was there stays, unchanged and in place. */
  function WithUserAgent(hs: seq<Header>, ua: string): (r: seq<Header>)
    ensures HasHeader(r, UserAgent)
    ensures hs <= r && |r| <= |hs| + 1
    ensures HasHeader(hs, UserAgent) ==> r == hs
    ensures |r| == |hs| + 1 ==> r[|hs|] == Header(UserAgent, ua)
  {
    if HasHeader(hs, UserAgent) then hs
    else
      var r := hs + [Header(UserAgent, ua)];
      assert SameName(r[|hs|].name, UserAgent);
      r
  }

  /** Adding the User-Agent twice is adding it once: the first value wins. */
  lemma WithUserAgentIdempotent(hs: seq<Header>, ua: string, ua': string)
    ensures WithUserAgent(WithUserAgent(hs, ua), ua') == WithUserAgent(hs, ua)
  {
  }

  /** The headers that the header-copy loop of ExecuteGetAsync leaves behind:
      the dictionary's entries in enumeration order, each one that
      TryAddWithoutValidation accepts appended as a header. */
  function Accepted(entries: seq<(string, string)>, accepts: string -> bool): (hs: seq<Header>)
    ensures |hs| <= |entries|
    ensures forall k :: 0 <= k < |hs| ==> accepts(hs[k].name) && (hs[k].name, hs[k].value) in entries
    decreases |entries|
  {
    if |entries| == 0 then []
    else
      var last := entries[|entries| - 1];
      Accepted(entries[..|entries| - 1], accepts)
        + (if accepts(last.0) then [Header(last.0, last.1)] else [])
  }

  /** When every name is accepted, the copy is the whole dictionary, entry
      by entry and in the same order. */
  lemma {:induction false} AcceptedAll(entries: seq<(string, string)>, accepts: string -> bool)
    requires forall k :: 0 <= k < |entries| ==> accepts(entries[k].0)
    ensures |Accepted(entries, accepts)| == |entries|
    ensures forall k :: 0 <= k < |entries| ==>
      Accepted(entries, accepts)[k] == Header(entries[k].0, entries[k].1)
    decreases |entries|
  {
    if |entries| > 0 {
      var n := |entries| - 1;
      AcceptedAll(entries[..n], accepts);
      var hs := Accepted(entries, accepts);
      assert hs == Accepted(entries[..n], accepts) + [Header(entries[n].0, entries[n].1)];
      forall k | 0 <= k < |entries|
        ensures hs[k] == Header(entries[k].0, entries[k].1)
      {
        if k < n {
          assert entries[..n][k] == entries[k];
        }
      }
    }
  }

  /** The copy of two runs of entries is the copy of the first followed by
      the copy of the second: entries keep their relative order. */
  lemma {:induction false} AcceptedConcat(a: seq<(string, string)>, b: seq<(string, string)>, accepts: string -> bool)
    ensures Accepted(a + b, accepts) == Accepted(a, accepts) + Accepted(b, accepts)
    decreases |b|
  {
    if |b| == 0 {
      assert a + b == a;
    } else {
      var m := |b| - 1;
      assert (a + b)[..|a + b| - 1] == a + b[..m];
      assert (a + b)[|a + b| - 1] == b[m];
      AcceptedConcat(a, b[..m], accepts);
    }
  }

  /** A single entry is copied as one header when accepted, and dropped otherwise. */
  lemma AcceptedOne(e: (string, string), accepts: string -> bool)
    ensures Accepted([e], accepts) == if accepts(e.0) then [Header(e.0, e.1)] else []
  {
    assert [e][..0] == [];
  }

  /** A rejected entry leaves the copy as if it were not in the dictionary. */
  lemma AcceptedDropsRejected(a: seq<(string, string)>, e: (string, string), b: seq<(string, string)>, accepts: string -> bool)
    requires !accepts(e.0)
    ensures Accepted(a + [e] + b, accepts) == Accepted(a + b, accepts)
  {
    AcceptedConcat(a + [e], b, accepts);
    AcceptedConcat(a, [e], accepts);
    AcceptedOne(e, accepts);
    AcceptedConcat(a, b, accepts);
  }

  /** An accepted entry ends up among the request's headers. */
  lemma {:induction false} AcceptedKeeps(entries: seq<(string, string)>, accepts: string -> bool, k: int)
    requires 0 <= k < |entries| && accepts(entries[k].0)
    ensures Header(entries[k].0, entries[k].1) in Accepted(entries, accepts)
    decreases |entries|
  {
    if k < |entries| - 1 {
      AcceptedKeeps(entries[..|entries| - 1], accepts, k);
    }
  }

  /** A User-Agent supplied by the caller (under any capitalisation) and
      accepted by the request is never replaced by the default one. */
  lemma CallerUserAgentWins(entries: seq<(string, string)>, accepts: string -> bool, k: int, ua: string)
    requires 0 <= k < |entries| && accepts(entries[k].0) && SameName(entries[k].0, UserAgent)
    ensures WithUserAgent(Accepted(entries, accepts), ua) == Accepted(entries, accepts)
  {
    var hs := Accepted(entries, accepts);
    AcceptedKeeps(entries, accepts, k);
    var j :| 0 <= j < |hs| && hs[j] == Header(entries[k].0, entries[k].1);
    assert SameName(hs[j].name, UserAgent);
  }

  /** HttpResponseMessage.IsSuccessStatusCode. */
  predicate IsSuccessStatus(status: int) { 200 <= status <= 299 }

  /** The answer classification of ExecuteAsync. */
  function ClassifyBody(status: int, body: string): (r: Result<string>)
    ensures r.Ok? <==> IsSuccessStatus(status)
    ensures r.Ok? ==> r.value == body
    ensures r == Err(RateLimited) <==> status == TooManyRequests
    ensures r.Err? && status != TooManyRequests ==> r.error == RequestFailed(status)
  {
    if status == TooManyRequests then Err(RateLimited)
    else if !IsSuccessStatus(status) then Err(RequestFailed(status))
    else Ok(body)
  }

  /** The answer classification of GetFileSizeAsync: no rate-limit case. */
  function ClassifyFileSize(status: int, contentLength: Option<int>): (r: Result<Option<int>>)
    ensures r.Ok? <==> IsSuccessStatus(status)
    ensures r.Ok? ==> r.value == contentLength
    ensures r.Err? ==> r.error == RequestFailed(status)
  {
    if !IsSuccessStatus(status) then Err(RequestFailed(status)) else Ok(contentLength)
  }

  /** The two classifications accept the same statuses and fail alike, 429
      apart: there ExecuteAsync reports the rate limit and GetFileSizeAsync
      the generic failure. */
  lemma ClassificationsAgree(status: int, body: string, contentLength: Option<int>)
    ensures ClassifyBody(status, body).Ok? == ClassifyFileSize(status, contentLength).Ok?
    ensures status != TooManyRequests && !IsSuccessStatus(status) ==>
      ClassifyBody(status, body).error == ClassifyFileSize(status, contentLength).error
    ensures ClassifyBody(TooManyRequests, body) == Err(RateLimited)
    ensures ClassifyFileSize(TooManyRequests, contentLength) == Err(RequestFailed(TooManyRequests))
  {
  }

  /** The request ExecuteGetAsync(url) sends: a fresh request, so the only
      header is the default User-Agent. */
  function GetRequest(url: string, ua: string): (req: HttpRequest)
    ensures req.url == url && req.headers == [Header(UserAgent, ua)]
  {
    HttpRequest(url, [Header(UserAgent, ua)])
  }

  /** What ExecuteGetAsync(url) gives back when `transport` answers the
      requests: the classified answer to the one request it sends. */
  function GetOutcome(transport: HttpRequest -> HttpResponse, ua: string, url: string): (r: Result<string>)
    ensures r.Ok? <==> IsSuccessStatus(transport(GetRequest(url, ua)).status)
    ensures r.Ok? ==> r.value == transport(GetRequest(url, ua)).body
  {
    var response := transport(GetRequest(url, ua));
    ClassifyBody(response.status, response.body)
  }

  /** HttpRequestMessage: the headers are updated in place. */
  class RequestMessage {
    const url: string
    var headers: seq<Header>

    constructor (url: string)
      ensures this.url == url && headers == []
    {
      this.url := url;
      headers := [];
    }

    function Snapshot(): HttpRequest
      reads this
    {
      HttpRequest(url, headers)
    }

    predicate Contains(name: string)
      reads this
    {
      HasHeader(headers, name)
    }

    /** Headers.TryAddWithoutValidation: appends when the collection accepts the name. */
    method TryAddWithoutValidation(name: string, value: string, accepts: string -> bool) returns (added: bool)
      modifies this`headers
      ensures added == accepts(name)
      ensures headers == old(headers) + (if added then [Header(name, value)] else [])
    {
      added := accepts(name);
      if added {
        headers := headers + [Header(name, value)];
      }
    }

    /** The User-Agent step shared by ExecuteAsync and GetFileSizeAsync. */
    method AddUserAgentIfMissing(ua: string)
      modifies this`headers
      ensures headers == WithUserAgent(old(headers), ua)
    {
      if !Contains(UserAgent) {
        headers := headers + [Header(UserAgent, ua)];
      }
    }
  }

  /** HttpClient with the extension methods of HttpExtensions. The transport
      is given as a function; `sent` records every request that went out. */
  class HttpClient {
    const transport: HttpRequest -> HttpResponse
    const chromeUserAgent: string
    const acceptsHeaderName: string -> bool
    ghost var sent: seq<HttpRequest>

    constructor (transport: HttpRequest -> HttpResponse, chromeUserAgent: string, acceptsHeaderName: string -> bool)
      ensures this.transport == transport && this.chromeUserAgent == chromeUserAgent
      ensures this.acceptsHeaderName == acceptsHeaderName && sent == []
    {
      this.transport := transport;
      this.chromeUserAgent := chromeUserAgent;
      this.acceptsHeaderName := acceptsHeaderName;
      sent := [];
    }

    /** SendAsync: one request on the wire, answered by the transport. */
    method Send(request: RequestMessage) returns (response: HttpResponse)
      modifies this`sent
      ensures sent == old(sent) + [request.Snapshot()]
      ensures response == transport(request.Snapshot())
    {
      response := transport(request.Snapshot());
      sent := sent + [request.Snapshot()];
    }

    /** ExecuteAsync(request). */
    method Execute(request: RequestMessage) returns (r: Result<string>)
      modifies this`sent, request`headers
      ensures request.headers == WithUserAgent(old(request.headers), chromeUserAgent)
      ensures sent == old(sent) + [request.Snapshot()]
      ensures r == ClassifyBody(transport(request.Snapshot()).status, transport(request.Snapshot()).body)
    {
      request.AddUserAgentIfMissing(chromeUserAgent);
      var response := Send(request);
      if response.status == TooManyRequests {
        return Err(RateLimited);
      }
      r := if !IsSuccessStatus(response.status) then Err(RequestFailed(response.status)) else Ok(response.body);
    }

    /** ExecuteGetAsync(url). */
    method ExecuteGet(url: string) returns (r: Result<string>)
      modifies this`sent
      ensures sent == old(sent) + [GetRequest(url, chromeUserAgent)]
      ensures r == GetOutcome(transport, chromeUserAgent, url)
    {
      var request := new RequestMessage(url);
      assert !HasHeader([], UserAgent);
      r := Execute(request);
      assert request.Snapshot() == GetRequest(url, chromeUserAgent);
    }

    /** ExecuteGetAsync(url, headers): the dictionary is copied with an
        indexed loop, entry j on round j, before the request is executed. */
    method ExecuteGetWithHeaders(url: string, entries: seq<(string, string)>) returns (r: Result<string>)
      modifies this`sent
      ensures sent == old(sent) + [HttpRequest(url, WithUserAgent(Accepted(entries, acceptsHeaderName), chromeUserAgent))]
      ensures var wire := HttpRequest(url, WithUserAgent(Accepted(entries, acceptsHeaderName), chromeUserAgent));
              r == ClassifyBody(transport(wire).status, transport(wire).body)
    {
      var request := new RequestMessage(url);
      var j := 0;
      while j < |entries|
        invariant 0 <= j <= |entries|
        invariant request.headers == Accepted(entries[..j], acceptsHeaderName)
        invariant sent == old(sent)
      {
        var header := entries[j];
        assert entries[..j + 1][..j] == entries[..j];
        var _ := request.TryAddWithoutValidation(header.0, header.1, acceptsHeaderName);
        j := j + 1;
      }
      assert entries[..|entries|] == entries;
      r := Execute(request);
    }

    /** GetFileSizeAsync(request). */
    method GetFileSize(request: RequestMessage) returns (r: Result<Option<int>>)
      modifies this`sent, request`headers
      ensures request.headers == WithUserAgent(old(request.headers), chromeUserAgent)
      ensures sent == old(sent) + [request.Snapshot()]
      ensures r == ClassifyFileSize(transport(request.Snapshot()).status, transport(request.Snapshot()).contentLength)
    {
      request.AddUserAgentIfMissing(chromeUserAgent);
      var response := Send(request);
      r := if !IsSuccessStatus(response.status) then Err(RequestFailed(response.status)) else Ok(response.contentLength);
    }

    /** GetFileSizeAsync(url). */
    method GetFileSizeOf(url: string) returns (r: Result<Option<int>>)
      modifies this`sent
      ensures sent == old(sent) + [GetRequest(url, chromeUserAgent)]
      ensures var response := transport(GetRequest(url, chromeUserAgent));
              r == ClassifyFileSize(response.status, response.contentLength)
    {
      var request := new RequestMessage(url);
      assert !HasHeader([], UserAgent);
      r := GetFileSize(request);
      assert request.Snapshot() == GetRequest(url, chromeUserAgent);
    }
  }
}
