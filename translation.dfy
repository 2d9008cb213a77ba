/**
 * Translation of one registry push into one listener event, as the
 * resolver's `NotifyListener.notify` callback does it.
 */
module Translation {
  import opened Wrappers

  /** One service instance reported by the registry: the host and port of
      its URL (protocol and parameters play no part here). */
  datatype Url = Url(host: string, port: int)

  /** A socket address, taken to be its (host, port) pair. */
  datatype SocketAddress = SocketAddress(host: string, port: int)

  /** One resolved server: its address (its attributes are always empty). */
  datatype ServerInfo = ServerInfo(address: SocketAddress)

  /** The only status code the resolver reports. */
  datatype StatusCode = NotFound

  /** What the resolver hands to its listener. */
  datatype Event = OnUpdate(groups: seq<seq<ServerInfo>>) | OnError(code: StatusCode)

  /** The server that one registry URL resolves to. */
  function ServerFor(u: Url): (server: ServerInfo)
  {
    ServerInfo(SocketAddress(u.host, u.port))
  }

  /** `servers` lists, in order, one address per URL with that URL's host
      and port. */
  ghost predicate MatchesUrls(servers: seq<ServerInfo>, urls: seq<Url>)
  {
    && |servers| == |urls|
    && forall i :: 0 <= i < |urls| ==>
         servers[i].address.host == urls[i].host && servers[i].address.port == urls[i].port
  }

  /** The address group built for a non-empty push. */
  function Servers(urls: seq<Url>): (r: seq<ServerInfo>)
    ensures MatchesUrls(r, urls)
  {
    seq(|urls|, i requires 0 <= i < |urls| => ServerFor(urls[i]))
  }

  /** The event one push produces. A null or empty list (`None` or `[]`)
      is reported as an error with `NOT_FOUND`; any other list as a single
      update whose single address group holds one address per URL. */
  function PushResult(urls: Option<seq<Url>>): (e: Event)
    ensures e.OnUpdate? <==> urls.Some? && |urls.value| > 0
    ensures e.OnUpdate? ==> |e.groups| == 1 && MatchesUrls(e.groups[0], urls.value)
    ensures e.OnError? ==> e.code == NotFound
  {
    if urls.Some? && |urls.value| > 0 then OnUpdate([Servers(urls.value)])
    else OnError(NotFound)
  }

  /** Two address groups that both match the same URLs are the same group:
      `MatchesUrls` pins down the whole group, not just its length. */
  lemma MatchesUrlsUnique(a: seq<ServerInfo>, b: seq<ServerInfo>, urls: seq<Url>)
    requires MatchesUrls(a, urls) && MatchesUrls(b, urls)
    ensures a == b
  {
  }

  /** The loop of `notify` that builds the server list, one URL at a time. */
  method CollectServers(urls: seq<Url>) returns (servers: seq<ServerInfo>)
    ensures MatchesUrls(servers, urls)
  {
    servers := [];
    var i := 0;
    while i < |urls|
      invariant 0 <= i <= |urls|
      invariant MatchesUrls(servers, urls[..i])
    {
      servers := servers + [ServerFor(urls[i])];
      i := i + 1;
    }
    assert urls[..i] == urls;
  }
}
