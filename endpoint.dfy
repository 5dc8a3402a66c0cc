/** SoundcloudEndpoint, as far as the clients use it: the client id it was
    set up with and ResolveUrlAsync, which turns a page URL into the JSON
    document of the resource behind it. How it resolves is not part of this
    model; the answer is given as a function of the URL. */
module Bridge {
  import opened Common

  class SoundcloudEndpoint {
    const clientId: string
    const resolver: string -> Result<string>
    /** Every URL passed to ResolveUrlAsync, in call order. */
    ghost var resolved: seq<string>

    constructor (clientId: string, resolver: string -> Result<string>)
      ensures this.clientId == clientId && this.resolver == resolver && resolved == []
    {
      this.clientId := clientId;
      this.resolver := resolver;
      resolved := [];
    }

    /** ResolveUrlAsync(url): one resolve call, logged, answered by the resolver. */
    method ResolveUrl(url: string) returns (r: Result<string>)
      modifies this`resolved
      ensures resolved == old(resolved) + [url]
      ensures r == resolver(url)
    {
      r := resolver(url);
      resolved := resolved + [url];
    }
  }
}
