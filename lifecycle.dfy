/**
 * The resolver's one-shot lifecycle as a pure state machine.
 *
 * The state is the pair of guarded fields (`listener`, `shutdown`) together
 * with the log of calls the resolver has made on its registry. Each public
 * operation is a function from the old state to the new state and to
 * whether it threw; the class in module Resolver is proved against these
 * functions, and the lemmas below state what sequences of calls do.
 */
module Lifecycle {
  import opened Wrappers

  /** One call the resolver makes on its registry. */
  datatype RegistryCall = SubscribeCall | UnsubscribeCall

  /** The `IllegalStateException`s thrown by `Preconditions.checkState`. */
  datatype LifecycleError = AlreadyStarted | NotStarted

  /** Whether an operation returned normally or threw. */
  datatype Outcome = Done | Thrown(error: LifecycleError)

  /** The resolver's mutable state; `L` is the listener's type. */
  datatype State<L> = State(listener: Option<L>, shutdown: bool, calls: seq<RegistryCall>)

  /** The new state after an operation, and how the operation ended. */
  datatype Step<L> = Step(state: State<L>, outcome: Outcome)

  /** The state right after construction. */
  function Initial<L>(): (s: State<L>)
  {
    State(None, false, [])
  }

  /** Number of subscribe calls in a registry log. */
  function Subscribes(calls: seq<RegistryCall>): (n: nat)
  {
    multiset(calls)[SubscribeCall]
  }

  /** Number of unsubscribe calls in a registry log. */
  function Unsubscribes(calls: seq<RegistryCall>): (n: nat)
  {
    multiset(calls)[UnsubscribeCall]
  }

  /** The private `resolve`: subscribe unless already shut down. */
  function Resolve<L>(s: State<L>): (r: State<L>)
    ensures r.listener == s.listener && r.shutdown == s.shutdown
    ensures s.shutdown ==> r.calls == s.calls
    ensures !s.shutdown ==> r.calls == s.calls + [SubscribeCall]
  {
    if s.shutdown then s else s.(calls := s.calls + [SubscribeCall])
  }

  /** `start(listener)`: throws "already started" when a listener is set;
      otherwise stores the listener and resolves. */
  function Start<L>(s: State<L>, l: L): (r: Step<L>)
    ensures r.outcome.Thrown? <==> s.listener.Some?
    ensures r.outcome.Thrown? ==> r.outcome.error == AlreadyStarted && r.state == s
    ensures r.state.listener == if s.listener.Some? then s.listener else Some(l)
    ensures r.state.shutdown == s.shutdown
    ensures Subscribes(r.state.calls) <= Subscribes(s.calls) + 1
    ensures Unsubscribes(r.state.calls) == Unsubscribes(s.calls)
    ensures r.outcome.Done? && !s.shutdown ==> r.state.calls == s.calls + [SubscribeCall]
    ensures s.shutdown ==> r.state.calls == s.calls
  {
    if s.listener.Some? then Step(s, Thrown(AlreadyStarted))
    else Step(Resolve(s.(listener := Some(l))), Done)
  }

  /** `refresh()`: throws "not started" when no listener is set;
      otherwise resolves again. */
  function Refresh<L>(s: State<L>): (r: Step<L>)
    ensures r.outcome.Thrown? <==> s.listener.None?
    ensures r.outcome.Thrown? ==> r.outcome.error == NotStarted && r.state == s
    ensures r.state.listener == s.listener && r.state.shutdown == s.shutdown
    ensures Subscribes(r.state.calls) <= Subscribes(s.calls) + 1
    ensures Unsubscribes(r.state.calls) == Unsubscribes(s.calls)
    ensures r.outcome.Done? && !s.shutdown ==> r.state.calls == s.calls + [SubscribeCall]
    ensures s.shutdown ==> r.state.calls == s.calls
  {
    if s.listener.None? then Step(s, Thrown(NotStarted))
    else Step(Resolve(s), Done)
  }

  /** `shutdown()`: a no-op when already shut down; otherwise sets the flag
      and unsubscribes. It never throws. */
  function Shutdown<L>(s: State<L>): (r: State<L>)
    ensures r.shutdown && r.listener == s.listener
    ensures s.shutdown ==> r == s
    ensures !s.shutdown ==> r.calls == s.calls + [UnsubscribeCall]
  {
    if s.shutdown then s else s.(shutdown := true, calls := s.calls + [UnsubscribeCall])
  }

  /** A call of one of the three public lifecycle operations. */
  datatype Op<L> = StartOp(l: L) | RefreshOp | ShutdownOp

  /** The state after one call. A thrown exception leaves the state as it was. */
  function Apply<L>(s: State<L>, op: Op<L>): (r: State<L>)
  {
    match op
    case StartOp(l) => Start(s, l).state
    case RefreshOp => Refresh(s).state
    case ShutdownOp => Shutdown(s)
  }

  /** The state after a sequence of calls, made one after another. */
  function Run<L>(s: State<L>, ops: seq<Op<L>>): (r: State<L>)
    decreases |ops|
  {
    if ops == [] then s else Run(Apply(s, ops[0]), ops[1..])
  }

  /** Number of calls in `ops` that may resolve (`start` and `refresh`). */
  function ResolveRequests<L>(ops: seq<Op<L>>): (n: nat)
    decreases |ops|
  {
    if ops == [] then 0
    else (if ops[0].ShutdownOp? then 0 else 1) + ResolveRequests(ops[1..])
  }

  /** Whether `ops` calls `shutdown()` at least once. */
  predicate CallsShutdown<L>(ops: seq<Op<L>>)
  {
    exists i :: 0 <= i < |ops| && ops[i].ShutdownOp?
  }

  /** Whether `ops` calls `start` at least once. */
  predicate CallsStart<L>(ops: seq<Op<L>>)
  {
    exists i :: 0 <= i < |ops| && ops[i].StartOp?
  }

  /** The invariant every reachable state keeps: an unsubscribe is the last
      registry call and is there exactly when the flag is set, and nothing
      is subscribed before a listener has been stored (so a registry push,
      which can only follow a subscribe, always finds a listener). */
  ghost predicate Inv<L>(s: State<L>)
  {
    && (s.shutdown <==> UnsubscribeCall in s.calls)
    && (forall i :: 0 <= i < |s.calls| && s.calls[i] == UnsubscribeCall ==> i == |s.calls| - 1)
    && (SubscribeCall in s.calls ==> s.listener.Some?)
  }

  lemma InitialInv<L>()
    ensures Inv(Initial<L>())
  {
  }

  /** Every single call keeps the invariant. */
  lemma ApplyKeepsInv<L>(s: State<L>, op: Op<L>)
    requires Inv(s)
    ensures Inv(Apply(s, op))
  {
  }

  /** Any sequence of calls keeps the invariant. */
  lemma {:induction false} RunKeepsInv<L>(s: State<L>, ops: seq<Op<L>>)
    requires Inv(s)
    ensures Inv(Run(s, ops))
    decreases |ops|
  {
    if ops != [] {
      ApplyKeepsInv(s, ops[0]);
      RunKeepsInv(Apply(s, ops[0]), ops[1..]);
    }
  }

  /** Once shut down, the resolver stays shut down and makes no further
      registry call: no subscribe from `start` or `refresh`, no second
      unsubscribe from `shutdown`. */
  lemma {:induction false} NothingAfterShutdown<L>(s: State<L>, ops: seq<Op<L>>)
    requires s.shutdown
    ensures Run(s, ops).shutdown
    ensures Run(s, ops).calls == s.calls
    decreases |ops|
  {
    if ops != [] {
      NothingAfterShutdown(Apply(s, ops[0]), ops[1..]);
    }
  }

  /** Once a listener is stored it is never replaced, whatever follows. */
  lemma {:induction false} ListenerNeverReplaced<L>(s: State<L>, ops: seq<Op<L>>)
    requires s.listener.Some?
    ensures Run(s, ops).listener == s.listener
    decreases |ops|
  {
    if ops != [] {
      ListenerNeverReplaced(Apply(s, ops[0]), ops[1..]);
    }
  }

  /** The shutdown flag never goes back from true to false. */
  lemma {:induction false} ShutdownMonotonic<L>(s: State<L>, ops: seq<Op<L>>)
    ensures s.shutdown ==> Run(s, ops).shutdown
    ensures CallsShutdown(ops) ==> Run(s, ops).shutdown
    decreases |ops|
  {
    if ops != [] {
      ShutdownMonotonic(Apply(s, ops[0]), ops[1..]);
      if ops[0].ShutdownOp? {
        assert Apply(s, ops[0]).shutdown;
      } else if CallsShutdown(ops) {
        var i :| 0 <= i < |ops| && ops[i].ShutdownOp?;
        assert ops[1..][i - 1].ShutdownOp?;
      }
    }
  }

  /** Each `start` or `refresh` issues at most one subscribe. */
  lemma {:induction false} SubscribesBounded<L>(s: State<L>, ops: seq<Op<L>>)
    ensures Subscribes(Run(s, ops).calls) <= Subscribes(s.calls) + ResolveRequests(ops)
    decreases |ops|
  {
    if ops != [] {
      SubscribesBounded(Apply(s, ops[0]), ops[1..]);
    }
  }

  /** Before `start`, no amount of `refresh` or `shutdown` subscribes, and
      no listener appears. */
  lemma {:induction false} NoSubscribeBeforeStart<L>(s: State<L>, ops: seq<Op<L>>)
    requires s.listener.None?
    requires !CallsStart(ops)
    ensures Run(s, ops).listener.None?
    ensures Subscribes(Run(s, ops).calls) == Subscribes(s.calls)
    decreases |ops|
  {
    if ops != [] {
      assert !ops[0].StartOp? by { assert !(0 <= 0 < |ops| && ops[0].StartOp?); }
      assert !CallsStart(ops[1..]) by {
        forall i | 0 <= i < |ops[1..]| ensures !ops[1..][i].StartOp? {
          assert ops[1..][i] == ops[i + 1];
          assert !(0 <= i + 1 < |ops| && ops[i + 1].StartOp?);
        }
      }
      NoSubscribeBeforeStart(Apply(s, ops[0]), ops[1..]);
    }
  }

  /** Any number of `shutdown` calls, mixed with any other calls, produce
      exactly one unsubscribe in all, and none if `shutdown` is never called. */
  lemma {:induction false} UnsubscribeExactlyOnce<L>(s: State<L>, ops: seq<Op<L>>)
    ensures Unsubscribes(Run(s, ops).calls)
         == Unsubscribes(s.calls) + (if !s.shutdown && CallsShutdown(ops) then 1 else 0)
    decreases |ops|
  {
    if ops != [] {
      var t := Apply(s, ops[0]);
      UnsubscribeExactlyOnce(t, ops[1..]);
      if ops[0].ShutdownOp? {
        if !s.shutdown {
          assert t.shutdown;
          assert 0 <= 0 < |ops| && ops[0].ShutdownOp?;
        }
      } else {
        assert t.shutdown == s.shutdown;
        assert CallsShutdown(ops) <==> CallsShutdown(ops[1..]) by {
          if CallsShutdown(ops) {
            var i :| 0 <= i < |ops| && ops[i].ShutdownOp?;
            assert ops[1..][i - 1].ShutdownOp?;
          }
          if CallsShutdown(ops[1..]) {
            var i :| 0 <= i < |ops[1..]| && ops[1..][i].ShutdownOp?;
            assert ops[i + 1].ShutdownOp?;
          }
        }
      }
    }
  }

  /** From a freshly constructed resolver: the registry sees one unsubscribe
      exactly when `shutdown` was called, and every reachable state keeps
      the invariant. */
  lemma FromInitial<L>(ops: seq<Op<L>>)
    ensures Unsubscribes(Run(Initial<L>(), ops).calls) == (if CallsShutdown(ops) then 1 else 0)
    ensures Inv(Run(Initial<L>(), ops))
  {
    UnsubscribeExactlyOnce(Initial<L>(), ops);
    RunKeepsInv(Initial<L>(), ops);
  }
}
