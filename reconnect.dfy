/** The binding between a reconnect strategy and the disconnect notifications of a
    signal connection (ReconnectStrategy.java).  The strategy's decision hook,
    doStrategy, is abstract in ReconnectStrategy; here every invocation is counted. */
module Reconnect {

  /** The registered observers of `strategy`, counted with multiplicity. */
  function Registered(observers: seq<DisconnectObserver>, strategy: ReconnectStrategy): (n: nat)
    ensures n <= |observers|
    ensures n == 0 <==> forall i :: 0 <= i < |observers| ==> observers[i].strategy != strategy
  {
    if observers == [] then 0
    else Registered(observers[..|observers| - 1], strategy)
         + (if observers[|observers| - 1].strategy == strategy then 1 else 0)
  }

  /** `observers` with every occurrence of `o` taken out. */
  function Without(observers: seq<DisconnectObserver>, o: DisconnectObserver): (r: seq<DisconnectObserver>)
    ensures forall i :: 0 <= i < |r| ==> r[i] != o && r[i] in observers
    ensures forall x :: x in observers && x != o ==> x in r
  {
    if observers == [] then []
    else if observers[0] == o then Without(observers[1..], o)
    else [observers[0]] + Without(observers[1..], o)
  }

  /** The anonymous disconnect observer that `ReconnectStrategy.start` creates:
      it runs the decision hook only for a network-generated disconnect while its
      strategy is started. */
  class DisconnectObserver {
    const strategy: ReconnectStrategy

    constructor (strategy: ReconnectStrategy)
      ensures this.strategy == strategy
    {
      this.strategy := strategy;
    }

    method Notify(networkGenerated: bool)
      modifies strategy`strategyRuns
      ensures strategy.strategyRuns
           == old(strategy.strategyRuns) + (if networkGenerated && strategy.isStarted then 1 else 0)
    {
      if networkGenerated && strategy.isStarted {
        strategy.DoStrategy();
      }
    }
  }

  /** The disconnect event of a signal connection: the observers registered
      through `onDisconnect`, and the log of every notification delivered
      (which is what observers outside this model see). */
  class DisconnectObservable {
    var observers: seq<DisconnectObserver>
    var notices: seq<bool>

    constructor ()
      ensures observers == [] && notices == []
    {
      observers, notices := [], [];
    }

    /** The strategies that own a registered observer. */
    ghost function Strategies(): set<ReconnectStrategy>
      reads this
    {
      set i | 0 <= i < |observers| :: observers[i].strategy
    }

    method AddObserver(o: DisconnectObserver)
      modifies this`observers
      ensures observers == old(observers) + [o]
    {
      observers := observers + [o];
    }

    method RemoveObserver(o: DisconnectObserver)
      modifies this`observers
      ensures observers == Without(old(observers), o)
    {
      observers := Without(observers, o);
    }

    /** Delivers one disconnect notification to every registered observer, in
        registration order. */
    method NotifyObservers(networkGenerated: bool)
      modifies this`notices, Strategies()`strategyRuns
      ensures notices == old(notices) + [networkGenerated]
      ensures observers == old(observers)
      ensures forall s :: s in old(Strategies()) ==>
                s.strategyRuns == old(s.strategyRuns)
                  + (if networkGenerated && s.isStarted then Registered(observers, s) else 0)
    {
      notices := notices + [networkGenerated];
      ghost var owners := Strategies();
      var i := 0;
      while i < |observers|
        invariant 0 <= i <= |observers|
        invariant observers == old(observers) && owners == Strategies()
        invariant notices == old(notices) + [networkGenerated]
        invariant forall s :: s in owners ==>
                    s.strategyRuns == old(s.strategyRuns)
                      + (if networkGenerated && s.isStarted then Registered(observers[..i], s) else 0)
      {
        assert observers[..i + 1][..i] == observers[..i];
        assert observers[i].strategy in owners;
        observers[i].Notify(networkGenerated);
        i := i + 1;
      }
      assert observers[..i] == observers;
    }
  }

  /** Base class of the reconnect strategies.  `transitions` records, in order,
      every start (true) and stop (false) that took effect. */
  class ReconnectStrategy {
    var signalConnection: DisconnectObservable?
    var disconnectObserver: DisconnectObserver?
    var isStarted: bool
    var strategyRuns: nat
    ghost var transitions: seq<bool>

    ghost predicate Valid()
      reads this
    {
      && (isStarted ==> signalConnection != null && disconnectObserver != null)
      && (disconnectObserver != null ==> disconnectObserver.strategy == this)
      && isStarted == (|transitions| > 0 && transitions[|transitions| - 1])
    }

    /** The connection this strategy is bound to, as a frame. */
    ghost function Bound(): set<DisconnectObservable>
      reads this
    {
      if signalConnection == null then {} else {signalConnection}
    }

    constructor ()
      ensures Valid()
      ensures signalConnection == null && disconnectObserver == null
      ensures !isStarted && strategyRuns == 0 && transitions == []
    {
      signalConnection, disconnectObserver := null, null;
      isStarted, strategyRuns, transitions := false, 0, [];
    }

    /** Has `start` taken effect with no effective `stop` since. */
    function IsStarted(): (r: bool)
      reads this
      requires Valid()
      ensures r <==> |transitions| > 0 && transitions[|transitions| - 1]
      ensures r ==> signalConnection != null
    {
      isStarted
    }

    /** The abstract decision hook; the model counts its invocations. */
    method DoStrategy()
      modifies this`strategyRuns
      ensures strategyRuns == old(strategyRuns) + 1
    {
      strategyRuns := strategyRuns + 1;
    }

    /** Stops observing the bound connection.  Takes effect only when both a
        connection and an observer exist; the observer reference is kept. */
    method Stop()
      requires Valid()
      modifies this`isStarted, this`transitions, Bound()`observers
      ensures Valid()
      ensures signalConnection == old(signalConnection) && disconnectObserver == old(disconnectObserver)
      ensures old(signalConnection != null && disconnectObserver != null) ==>
                && !isStarted
                && signalConnection.observers == Without(old(signalConnection.observers), disconnectObserver)
                && transitions == old(transitions) + [false]
      ensures old(signalConnection == null || disconnectObserver == null) ==>
                && isStarted == old(isStarted) && !isStarted
                && transitions == old(transitions)
                && (signalConnection != null ==> signalConnection.observers == old(signalConnection.observers))
    {
      if signalConnection != null && disconnectObserver != null {
        signalConnection.RemoveObserver(disconnectObserver);
        isStarted := false;
        transitions := transitions + [false];
      }
    }

    /** Starts observing the bound connection: a no-op when already started or
        when no connection is bound; otherwise exactly one fresh observer is
        registered on the connection. */
    method Start()
      requires Valid()
      modifies this`isStarted, this`disconnectObserver, this`transitions, Bound()`observers
      ensures Valid()
      ensures signalConnection == old(signalConnection)
      ensures !old(isStarted) && signalConnection != null ==>
                && isStarted
                && fresh(disconnectObserver)
                && signalConnection.observers == old(signalConnection.observers) + [disconnectObserver]
                && transitions == old(transitions) + [true]
      ensures old(isStarted) || signalConnection == null ==>
                && isStarted == old(isStarted)
                && disconnectObserver == old(disconnectObserver)
                && transitions == old(transitions)
                && (signalConnection != null ==> signalConnection.observers == old(signalConnection.observers))
    {
      if !isStarted && signalConnection != null {
        var observer := new DisconnectObserver(this);
        disconnectObserver := observer;
        signalConnection.AddObserver(observer);
        isStarted := true;
        transitions := transitions + [true];
      }
    }

    /** Binds the strategy to `connection`, stopping it first if it is started. */
    method SetSignalConnection(connection: DisconnectObservable?)
      requires Valid()
      modifies this`signalConnection, this`isStarted, this`transitions, Bound()`observers
      ensures Valid()
      ensures signalConnection == connection && !isStarted
      ensures disconnectObserver == old(disconnectObserver)
      ensures old(isStarted) ==>
                && old(signalConnection).observers == Without(old(signalConnection.observers), disconnectObserver)
                && transitions == old(transitions) + [false]
      ensures !old(isStarted) ==>
                && transitions == old(transitions)
                && (old(signalConnection) != null ==> old(signalConnection).observers == old(signalConnection.observers))
    {
      if isStarted {
        Stop();
      }
      signalConnection := connection;
    }
  }
}
