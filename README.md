# Consul name resolver — a Dafny model

This project models `ConsulNameResolver`, the gRPC `NameResolver` of
spring-boot-starter-grpc. It turns a `host[:port]` target into a
subscription on a Consul service registry and passes the registry's pushes
on to the gRPC listener. Three parts are modelled:

- **Construction** (`locator.dfy`, module `Locator`). The target name comes
  in already split into the authority, host and port that
  `java.net.URI` extracts from `"//" + name`. The constructor then checks,
  in this order:
  1. that there is an authority;
  2. that there is a host;
  3. that there is a port.

  An explicit port wins. Without one, the `PARAMS_DEFAULT_PORT` parameter is
  used. Without either, construction fails.
- **The one-shot lifecycle** (`lifecycle.dfy`, module `Lifecycle`). It is a
  pure state machine over the fields `listener` and `shutdown`, plus the log
  of `subscribe`/`unsubscribe` calls made on the registry. `Start`,
  `Refresh`, `Resolve` and `Shutdown` are step functions. `Run` applies a
  sequence of calls. The lemmas state what any such sequence does to the
  log.
- **Push translation** (`translation.dfy`, module `Translation`). One
  registry push becomes one listener event. A non-empty URL list becomes
  one `onUpdate` with a single address group. A null or empty list becomes
  one `onError` with `NOT_FOUND`.

`resolver.dfy` (module `Resolver`) holds the imperative side:
- `ConsulNameResolver` is a class with the fields `shutdown` and `listener`.
- `Registry` and `Listener` are classes that record the calls made on them.

Each lifecycle method is proved to move the object exactly as the matching
`Lifecycle` function does, and it keeps `Lifecycle.Inv`. `Notify` runs the
server-list loop, written as the method `CollectServers`, and is proved to
append exactly `PushResult(urls)` to the listener's events.
`StartScenario` and `ShutdownScenario` are clients that use only these
contracts to follow one resolver from construction to shutdown.

Three details of the code the model keeps as written:
- The authority is the URI authority of the name itself. For a name
  without a port, the default port goes to the registry address but is not
  appended to the authority (`Locator.AuthorityIgnoresDefault`).
- A missing authority or host is a `NullPointerException` from
  `Preconditions.checkNotNull` (`MissingAuthority`, `MissingHost`). It is
  not an invalid-argument error.
- The registry callback does not check `shutdown`. A push delivered after
  `shutdown()` still reaches the listener. Only `resolve` checks the flag.

## Model

| member | source | states |
|---|---|---|
| `Locator.SelectPort` | spring-boot-starter-grpc/src/main/java/com/quancheng/starter/grpc/internal/ConsulNameResolver.java:75-86 | The name's explicit port is used when present. Otherwise the default port is used. There is no port exactly when both are absent. |
| `Locator.Locate` | spring-boot-starter-grpc/src/main/java/com/quancheng/starter/grpc/internal/ConsulNameResolver.java:70-86 | Construction succeeds iff the name has an authority, a host, and an explicit or default port. On success, the authority and host are the name's own and the port is chosen as above. On failure, the error names the first check that failed: authority, then host, then port. |
| `Locator.ExplicitPortIgnoresDefault` | spring-boot-starter-grpc/src/main/java/com/quancheng/starter/grpc/internal/ConsulNameResolver.java:76-86 | For a name with an explicit port, the result does not depend on the default port. |
| `Locator.AuthorityIgnoresDefault` | spring-boot-starter-grpc/src/main/java/com/quancheng/starter/grpc/internal/ConsulNameResolver.java:71-86 | Whenever construction succeeds, the reported authority is the name's own authority, whatever default port was given. The default port never enters the authority. |
| `Locator.SampleTargets` | spring-boot-starter-grpc/src/main/java/com/quancheng/starter/grpc/internal/ConsulNameResolver.java:71-86 | Examples. "consul-host" with default 8500 keeps the authority "consul-host" and uses port 8500. Without a default it fails with a missing port. "10.0.0.5:8080" keeps its authority and port 8080. |
| `Resolver.ConsulNameResolver.Create` | spring-boot-starter-grpc/src/main/java/com/quancheng/starter/grpc/internal/ConsulNameResolver.java:70-100 | Construction fails exactly when `Locate` fails, with the same error. On success the new resolver has: a `ServiceAuthority()`, the model of `getServiceAuthority`, equal to the located authority; a fresh registry at the located host and port; no listener, no shutdown and an empty registry log. The authority is a `const`, so nothing changes it afterwards. |
| `Resolver.ConsulNameResolver.constructor` | spring-boot-starter-grpc/src/main/java/com/quancheng/starter/grpc/internal/ConsulNameResolver.java:87-88 | The registry is obtained for the located host and port, and the resolver starts in the initial lifecycle state. |
| `Lifecycle.Resolve` | spring-boot-starter-grpc/src/main/java/com/quancheng/starter/grpc/internal/ConsulNameResolver.java:115-120 | After shutdown, the registry log is unchanged. Otherwise exactly one subscribe is appended. The listener and the flag are untouched. |
| `Lifecycle.Start` | spring-boot-starter-grpc/src/main/java/com/quancheng/starter/grpc/internal/ConsulNameResolver.java:108-113 | Throws "already started" iff a listener is set, and then changes nothing. The stored listener is the old one if there was one, else the new one. Adds at most one subscribe and no unsubscribe. Adds exactly one subscribe when it succeeds before shutdown, and none after shutdown. |
| `Lifecycle.Refresh` | spring-boot-starter-grpc/src/main/java/com/quancheng/starter/grpc/internal/ConsulNameResolver.java:102-106 | Throws "not started" iff no listener is set, and then changes nothing. The listener and the flag are always unchanged. Adds at most one subscribe, exactly one before shutdown and none after. |
| `Lifecycle.Shutdown` | spring-boot-starter-grpc/src/main/java/com/quancheng/starter/grpc/internal/ConsulNameResolver.java:122-129 | Afterwards the flag is set and the listener is kept. When already shut down, nothing changes. Otherwise exactly one unsubscribe is appended. |
| `Lifecycle.InitialInv` | spring-boot-starter-grpc/src/main/java/com/quancheng/starter/grpc/internal/ConsulNameResolver.java:34-37 | The freshly constructed state satisfies the lifecycle invariant. |
| `Lifecycle.ApplyKeepsInv` | spring-boot-starter-grpc/src/main/java/com/quancheng/starter/grpc/internal/ConsulNameResolver.java:102-129 | Each call keeps the invariant. The flag is set iff there is an unsubscribe. The unsubscribe can only be the last registry call. A subscribe implies a stored listener. |
| `Lifecycle.RunKeepsInv` | spring-boot-starter-grpc/src/main/java/com/quancheng/starter/grpc/internal/ConsulNameResolver.java:102-129 | Any sequence of start/refresh/shutdown calls keeps the invariant. |
| `Lifecycle.NothingAfterShutdown` | spring-boot-starter-grpc/src/main/java/com/quancheng/starter/grpc/internal/ConsulNameResolver.java:115-129 | Once shut down, any further calls leave the flag set and the registry log unchanged. That means no subscribe from start or refresh and no second unsubscribe. |
| `Lifecycle.ListenerNeverReplaced` | spring-boot-starter-grpc/src/main/java/com/quancheng/starter/grpc/internal/ConsulNameResolver.java:108-113 | Once a listener is stored, no sequence of calls replaces it. |
| `Lifecycle.ShutdownMonotonic` | spring-boot-starter-grpc/src/main/java/com/quancheng/starter/grpc/internal/ConsulNameResolver.java:122-129 | The flag never goes back to false. It is set after any sequence that contains a shutdown. |
| `Lifecycle.SubscribesBounded` | spring-boot-starter-grpc/src/main/java/com/quancheng/starter/grpc/internal/ConsulNameResolver.java:102-120 | A sequence of calls adds no more subscribes than it has start and refresh calls. |
| `Lifecycle.NoSubscribeBeforeStart` | spring-boot-starter-grpc/src/main/java/com/quancheng/starter/grpc/internal/ConsulNameResolver.java:102-106 | Without a start, a resolver with no listener stays without one, and refresh or shutdown calls add no subscribe. |
| `Lifecycle.UnsubscribeExactlyOnce` | spring-boot-starter-grpc/src/main/java/com/quancheng/starter/grpc/internal/ConsulNameResolver.java:122-129 | Any sequence of calls adds exactly one unsubscribe if the resolver was not yet shut down and the sequence contains a shutdown. Otherwise it adds none, however many shutdowns it has. |
| `Lifecycle.FromInitial` | spring-boot-starter-grpc/src/main/java/com/quancheng/starter/grpc/internal/ConsulNameResolver.java:102-129 | From construction, the log holds one unsubscribe iff shutdown was called, and none otherwise. Every reachable state satisfies the invariant. |
| `Resolver.ConsulNameResolver.Resolve` | spring-boot-starter-grpc/src/main/java/com/quancheng/starter/grpc/internal/ConsulNameResolver.java:115-120 | The object's new state is `Lifecycle.Resolve` of its old state, and the invariant is kept. |
| `Resolver.ConsulNameResolver.Start` | spring-boot-starter-grpc/src/main/java/com/quancheng/starter/grpc/internal/ConsulNameResolver.java:108-113 | The new state and the outcome (returned or thrown) are those of `Lifecycle.Start`, and the invariant is kept. |
| `Resolver.ConsulNameResolver.Refresh` | spring-boot-starter-grpc/src/main/java/com/quancheng/starter/grpc/internal/ConsulNameResolver.java:102-106 | The new state and the outcome are those of `Lifecycle.Refresh`, and the invariant is kept. |
| `Resolver.ConsulNameResolver.Shutdown` | spring-boot-starter-grpc/src/main/java/com/quancheng/starter/grpc/internal/ConsulNameResolver.java:122-129 | The new state is `Lifecycle.Shutdown` of the old state, and the invariant is kept. |
| `Resolver.ConsulNameResolver.Notify` | spring-boot-starter-grpc/src/main/java/com/quancheng/starter/grpc/internal/ConsulNameResolver.java:48-67 | Given any push to a subscribed callback, a listener is set. Exactly one event is appended to its log, namely `PushResult(urls)`. The shutdown flag is not consulted. |
| `Translation.Servers` | spring-boot-starter-grpc/src/main/java/com/quancheng/starter/grpc/internal/ConsulNameResolver.java:52-60 | The address group has one entry per URL, in order. Each entry has that URL's host and port. |
| `Translation.CollectServers` | spring-boot-starter-grpc/src/main/java/com/quancheng/starter/grpc/internal/ConsulNameResolver.java:52-60 | The loop builds a list with one server per URL, in order, with the URL's host and port. |
| `Translation.MatchesUrlsUnique` | spring-boot-starter-grpc/src/main/java/com/quancheng/starter/grpc/internal/ConsulNameResolver.java:52-60 | An address group is fully determined by the URLs it matches. |
| `Translation.PushResult` | spring-boot-starter-grpc/src/main/java/com/quancheng/starter/grpc/internal/ConsulNameResolver.java:50-66 | A push gives an update iff its list is present and non-empty. An update holds exactly one address group, which matches the URLs in order. Any other push gives an error with `NOT_FOUND`. |

## Left out

- Parsing of `"//" + name` by `java.net.URI`, including the exception `URI.create` throws for malformed names. The name comes in already split into authority, host and port.
- `RegistryFactory.getRegistry` and the Consul registry's real subscribe and unsubscribe, which are asynchronous network I/O. The registry is a fresh recorder of the calls this resolver makes, at the located host and port.
- The reference URL `refUrl` (service name, group, version, protocol, local address), because it needs the host's network interfaces. The error description text built from `refUrl.toFullStr()` is left out too. Only the status code is modelled.
- `InetAddresses.forString` and `InetSocketAddress`, and the exceptions they throw for a non-literal IP or an out-of-range port. An address is its (host, port) pair. The always-empty `Attributes` are not carried.
- `synchronized` and `@GuardedBy`, and the race between the registry's callback thread and `shutdown()`. Operations are sequential and atomic.
- `start(null)`. The listener parameter is non-null, as the gRPC framework always passes one.
- The demo program `TestMain.java`, which only opens a channel and makes one live call.
