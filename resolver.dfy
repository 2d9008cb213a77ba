/**
 * The resolver object: its two guarded fields, the registry it subscribes
 * to and the listener it reports to. The registry and the listener are
 * recorders of the calls the resolver makes on them; each lifecycle method
 * is proved to move the resolver exactly as the matching function of
 * module Lifecycle does.
 */
module Resolver {
  import opened Wrappers
  import opened Locator
  import Lifecycle
  import opened Translation

  /** The registry at the host and port chosen at construction, recording
      the subscribe and unsubscribe calls it receives from this resolver. */
  class Registry {
    const host: string
    const port: int
    var calls: seq<Lifecycle.RegistryCall>

    constructor (host: string, port: int)
      ensures this.host == host && this.port == port && calls == []
    {
      this.host := host;
      this.port := port;
      calls := [];
    }

    method Subscribe()
      modifies this
      ensures calls == old(calls) + [Lifecycle.SubscribeCall]
    {
      calls := calls + [Lifecycle.SubscribeCall];
    }

    method Unsubscribe()
      modifies this
      ensures calls == old(calls) + [Lifecycle.UnsubscribeCall]
    {
      calls := calls + [Lifecycle.UnsubscribeCall];
    }
  }

  /** The framework's listener, recording the events it receives. */
  class Listener {
    var events: seq<Event>

    constructor ()
      ensures events == []
    {
      events := [];
    }

    method OnUpdate(groups: seq<seq<ServerInfo>>)
      modifies this
      ensures events == old(events) + [Event.OnUpdate(groups)]
    {
      events := events + [Event.OnUpdate(groups)];
    }

    method OnError(code: StatusCode)
      modifies this
      ensures events == old(events) + [Event.OnError(code)]
    {
      events := events + [Event.OnError(code)];
    }
  }

  class ConsulNameResolver {
    const authority: string
    const registry: Registry
    var shutdown: bool
    var listener: Listener?

    /** The lifecycle state this object is in. */
    function State(): (s: Lifecycle.State<Listener>)
      reads this, registry
    {
      Lifecycle.State(if listener == null then None else Some(listener as Listener), shutdown, registry.calls)
    }

    ghost predicate Valid()
      reads this, registry
    {
      Lifecycle.Inv(State())
    }

    constructor (loc: ServiceLocator)
      ensures fresh(registry) && registry.host == loc.host && registry.port == loc.port
      ensures authority == loc.authority
      ensures Valid() && State() == Lifecycle.Initial()
    {
      authority := loc.authority;
      registry := new Registry(loc.host, loc.port);
      shutdown := false;
      listener := null;
    }

    /** Construction from the split target name and the optional default
        port; the failure cases are the exceptions the constructor throws. */
    static method Create(uri: NameUri, defaultPort: Option<int>)
      returns (r: Result<ConsulNameResolver, ConstructError>)
      ensures Locate(uri, defaultPort).Failure? <==> r.Failure?
      ensures r.Failure? ==> r.error == Locate(uri, defaultPort).error
      ensures r.Success? ==>
        var loc := Locate(uri, defaultPort).value;
        && fresh(r.value) && fresh(r.value.registry)
        && r.value.ServiceAuthority() == loc.authority
        && r.value.registry.host == loc.host && r.value.registry.port == loc.port
        && r.value.Valid() && r.value.State() == Lifecycle.Initial()
    {
      match Locate(uri, defaultPort)
      case Failure(e) =>
        r := Failure(e);
      case Success(loc) =>
        var resolver := new ConsulNameResolver(loc);
        r := Success(resolver);
    }

    /** `getServiceAuthority`: the authority fixed at construction. */
    function ServiceAuthority(): string
    {
      authority
    }

    /** The private `resolve`: subscribe unless shut down. Its callers have
        stored a listener before calling it. */
    method Resolve()
      requires Valid() && listener != null
      modifies registry
      ensures Valid()
      ensures State() == Lifecycle.Resolve(old(State()))
    {
      if shutdown {
        return;
      }
      registry.Subscribe();
    }

    method Start(l: Listener) returns (outcome: Lifecycle.Outcome)
      requires Valid()
      modifies this, registry
      ensures Valid()
      ensures Lifecycle.Step(State(), outcome) == Lifecycle.Start(old(State()), l)
    {
      if listener != null {
        return Lifecycle.Thrown(Lifecycle.AlreadyStarted);
      }
      listener := l;
      Resolve();
      outcome := Lifecycle.Done;
    }

    method Refresh() returns (outcome: Lifecycle.Outcome)
      requires Valid()
      modifies registry
      ensures Valid()
      ensures Lifecycle.Step(State(), outcome) == Lifecycle.Refresh(old(State()))
    {
      if listener == null {
        return Lifecycle.Thrown(Lifecycle.NotStarted);
      }
      Resolve();
      outcome := Lifecycle.Done;
    }

    method Shutdown()
      requires Valid()
      modifies this, registry
      ensures Valid()
      ensures State() == Lifecycle.Shutdown(old(State()))
    {
      if shutdown {
        return;
      }
      shutdown := true;
      registry.Unsubscribe();
    }

    /** The registry callback. The registry only calls back a callback it
        was subscribed with, and a subscribe is only ever made after a
        listener was stored. The callback does not look at `shutdown`: a
        push that arrives after `Shutdown` still reaches the listener. */
    method Notify(urls: Option<seq<Url>>)
      requires Valid()
      requires Lifecycle.SubscribeCall in registry.calls
      modifies listener
      ensures listener != null && listener == old(listener)
      ensures listener.events == old(listener.events) + [PushResult(urls)]
    {
      if urls.Some? && |urls.value| > 0 {
        var servers := CollectServers(urls.value);
        MatchesUrlsUnique(servers, Servers(urls.value), urls.value);
        listener.OnUpdate([servers]);
      } else {
        listener.OnError(NotFound);
      }
    }
  }

  /** A resolver for "10.0.0.5:8080", freshly constructed. */
  method NewScenarioResolver() returns (resolver: ConsulNameResolver)
    ensures fresh(resolver) && fresh(resolver.registry)
    ensures resolver.Valid() && resolver.State() == Lifecycle.Initial()
    ensures resolver.ServiceAuthority() == "10.0.0.5:8080"
  {
    var uri := NameUri(Some("10.0.0.5:8080"), Some("10.0.0.5"), Some(8080));
    var created := ConsulNameResolver.Create(uri, None);
    assert created.Success?;
    resolver := created.value;
  }

  /** A client of the contracts above: `refresh` before `start` throws and
      subscribes nothing; a second `start` throws and keeps the first
      listener. */
  method StartScenario(first: Listener, second: Listener)
  {
    var resolver := NewScenarioResolver();
    var o := resolver.Refresh();
    assert o == Lifecycle.Thrown(Lifecycle.NotStarted) && resolver.registry.calls == [];
    o := resolver.Start(first);
    assert o == Lifecycle.Done && resolver.registry.calls == [Lifecycle.SubscribeCall];
    o := resolver.Start(second);
    assert o == Lifecycle.Thrown(Lifecycle.AlreadyStarted) && resolver.listener == first;
  }

  /** A client of the contracts above: a second `shutdown` makes no second
      unsubscribe, a `refresh` after `shutdown` subscribes nothing, and a
      push delivered after `shutdown` still reaches the listener. */
  method ShutdownScenario(l: Listener)
    modifies l
  {
    var resolver := NewScenarioResolver();
    var o := resolver.Start(l);
    resolver.Shutdown();
    resolver.Shutdown();
    o := resolver.Refresh();
    assert o == Lifecycle.Done;
    assert resolver.registry.calls == [Lifecycle.SubscribeCall, Lifecycle.UnsubscribeCall];

    ghost var before := l.events;
    resolver.Notify(Some([]));
    assert l.events == before + [Event.OnError(NotFound)];
  }
}
