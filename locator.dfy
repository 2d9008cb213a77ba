/**
 * Construction-time validation of the resolution target: which registry
 * host and port the resolver talks to, and which authority it reports.
 *
 * The target name is handed over already split into the parts that
 * `java.net.URI` extracts from "//" + name (authority, host, port); the URI
 * syntax itself is not modelled.
 */
module Locator {
  import opened Wrappers

  /** The parts of the target name as `URI.create("//" + name)` exposes them.
      `authority` and `host` are `None` where the URI getters return null;
      `port` is `None` where `getPort()` returns -1. */
  datatype NameUri = NameUri(authority: Option<string>, host: Option<string>, port: Option<nat>)

  /** What a successfully constructed resolver keeps: the authority it
      reports and the host and port of the registry it subscribes to. */
  datatype ServiceLocator = ServiceLocator(authority: string, host: string, port: int)

  /** Why construction fails. The first two are the `NullPointerException`s
      thrown by `Preconditions.checkNotNull`; the last is the
      `IllegalArgumentException` for a name without a port and no default. */
  datatype ConstructError = MissingAuthority | MissingHost | MissingPort

  /** The port the registry is reached on: the name's own port when it has
      one, else the default port from the resolver parameters. */
  function SelectPort(explicit: Option<nat>, defaultPort: Option<int>): (r: Option<int>)
    ensures r.None? <==> explicit.None? && defaultPort.None?
    ensures explicit.Some? ==> r == Some(explicit.value as int)
    ensures explicit.None? && defaultPort.Some? ==> r == defaultPort
  {
    match explicit
    case Some(p) => Some(p)
    case None => defaultPort
  }

  /** The resolver constructor's checks, in the order it makes them:
      authority, then host, then port. */
  function Locate(uri: NameUri, defaultPort: Option<int>): (r: Result<ServiceLocator, ConstructError>)
    ensures r.Success? <==> uri.authority.Some? && uri.host.Some? && (uri.port.Some? || defaultPort.Some?)
    ensures r.Success? ==> r.value.authority == uri.authority.value && r.value.host == uri.host.value
    ensures r.Success? && uri.port.Some? ==> r.value.port == uri.port.value
    ensures r.Success? && uri.port.None? ==> r.value.port == defaultPort.value
    ensures r.Failure? && uri.authority.None? ==> r.error == MissingAuthority
    ensures r.Failure? && uri.authority.Some? && uri.host.None? ==> r.error == MissingHost
    ensures r.Failure? && uri.authority.Some? && uri.host.Some? ==> r.error == MissingPort
  {
    if uri.authority.None? then Failure(MissingAuthority)
    else if uri.host.None? then Failure(MissingHost)
    else
      match SelectPort(uri.port, defaultPort)
      case None => Failure(MissingPort)
      case Some(p) => Success(ServiceLocator(uri.authority.value, uri.host.value, p))
  }

  /** Construction is a function of its inputs alone, and a missing port
      never makes a name with an explicit port fail: the default port is
      consulted only when the name has none. */
  lemma ExplicitPortIgnoresDefault(uri: NameUri, d1: Option<int>, d2: Option<int>)
    requires uri.port.Some?
    ensures Locate(uri, d1) == Locate(uri, d2)
  {
  }

  /** The authority a resolver reports is the name's own authority, whatever
      default port it was given: the default port goes to the registry
      address only and is never appended to the authority. */
  lemma AuthorityIgnoresDefault(uri: NameUri, d1: Option<int>, d2: Option<int>)
    requires Locate(uri, d1).Success? && Locate(uri, d2).Success?
    ensures Locate(uri, d1).value.authority == Locate(uri, d2).value.authority == uri.authority.value
  {
  }

  /** Three sample targets: "consul-host" with default port 8500 keeps the
      authority "consul-host"; without a default it has no port; an
      explicit "10.0.0.5:8080" keeps its authority and port. */
  lemma SampleTargets()
    ensures Locate(NameUri(Some("consul-host"), Some("consul-host"), None), Some(8500))
         == Success(ServiceLocator("consul-host", "consul-host", 8500))
    ensures Locate(NameUri(Some("consul-host"), Some("consul-host"), None), None)
         == Failure(MissingPort)
    ensures Locate(NameUri(Some("10.0.0.5:8080"), Some("10.0.0.5"), Some(8080)), None)
         == Success(ServiceLocator("10.0.0.5:8080", "10.0.0.5", 8080))
  {
  }
}
