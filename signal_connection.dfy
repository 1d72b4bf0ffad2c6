/** The client end of the signal socket (NettySignalConnection.java): one
    channel, the ping/pong keepalive timers, and the hand-off of disconnects to
    the bound reconnect strategy.

    Timers are abstract: each slot records whether a task is scheduled and with
    which delay, and the scheduler's firing of a task is the explicit method
    FirePingTimer or FirePongTimer.  The asynchronous connect/disconnect tasks
    run to completion inside the call; the outcome of the socket connect is a
    parameter.  Observers of ping events, received commands, connect events and
    exceptions are append-only logs. */
module SignalConnection {
  import opened Wrappers
  import opened SignalCommands
  import opened Reconnect

  /** Milliseconds of inactivity before a ping is sent. */
  const DEFAULT_PING_TIMEOUT: int := 1000 * 300

  /** Milliseconds to wait for the pong before disconnecting. */
  const DEFAULT_PONG_TIMEOUT: int := 1000 * 30

  datatype PingEvent =
    | PingScheduled
    | PingSent
    | PingCancelled
    | PongReceived
    | PongCancelled
    | PongTimeout

  /** A scheduled-future slot: null, a pending task with its delay in
      milliseconds, a task that has run, or a cancelled task. */
  datatype Timer = Unset | Armed(delay: int) | Fired | Cancelled

  /** `Future.cancel`: a pending task becomes cancelled; a task that has run
      or was cancelled is unaffected. */
  function Cancel(t: Timer): (r: Timer)
    ensures !r.Armed?
    ensures r.Cancelled? <==> t.Armed? || t.Cancelled?
    ensures !t.Armed? ==> r == t
  {
    if t.Armed? then Cancelled else t
  }

  /** What cancelPing and cancelPong log: `event` exactly when the future is
      non-null and not cancelled, which includes a task that has already run. */
  function CancelEvents(t: Timer, event: PingEvent): (r: seq<PingEvent>)
    ensures r == [] || r == [event]
    ensures r == [event] <==> t.Armed? || t.Fired?
  {
    if t.Armed? || t.Fired? then [event] else []
  }

  /** The socket channel, once one has been created. */
  datatype Channel = Channel(connected: bool)

  /** The channel after it is closed. */
  function Closed(channel: Option<Channel>): (r: Option<Channel>)
    ensures r.Some? == channel.Some?
    ensures r.Some? ==> !r.value.connected
  {
    if channel.Some? then Some(Channel(false)) else None
  }

  datatype ConnectError = AlreadyConnected

  class NettySignalConnection {
    var pingTimeout: int
    var pongTimeout: int
    var pingTimer: Timer
    var pongTimer: Timer
    var doKeepalives: bool
    var networkDisconnect: bool
    var channel: Option<Channel>
    var hasExecutor: bool
    var reconnectStrategy: ReconnectStrategy
    const disconnectEvent: DisconnectObservable
    var pingEvents: seq<PingEvent>
    var received: seq<Command>
    var connectEvents: seq<bool>
    var exceptions: seq<string>
    var sent: seq<Outbound>

    ghost predicate Valid()
      reads this, reconnectStrategy
    {
      reconnectStrategy.Valid()
    }

    /** Binds `strategy` to the new connection (stopping it first if it was
        started elsewhere); keepalives are on. */
    constructor (strategy: ReconnectStrategy)
      requires strategy.Valid()
      modifies strategy`signalConnection, strategy`isStarted, strategy`transitions, strategy.Bound()`observers
      ensures Valid() && reconnectStrategy == strategy
      ensures fresh(disconnectEvent) && disconnectEvent.observers == [] && disconnectEvent.notices == []
      ensures strategy.signalConnection == disconnectEvent && !strategy.isStarted
      ensures strategy.disconnectObserver == old(strategy.disconnectObserver)
      // Binding stops a strategy started on another connection, which takes
      // its observer off that connection; an unstarted strategy's previous
      // connection is left as it was.
      ensures old(strategy.isStarted) ==>
                && old(strategy.signalConnection).observers
                   == Without(old(strategy.signalConnection.observers), strategy.disconnectObserver)
                && strategy.transitions == old(strategy.transitions) + [false]
      ensures !old(strategy.isStarted) ==>
                && strategy.transitions == old(strategy.transitions)
                && (old(strategy.signalConnection) != null ==>
                      old(strategy.signalConnection).observers == old(strategy.signalConnection.observers))
      ensures pingTimeout == DEFAULT_PING_TIMEOUT && pongTimeout == DEFAULT_PONG_TIMEOUT
      ensures pingTimer == Unset && pongTimer == Unset
      ensures doKeepalives && !networkDisconnect && channel == None && !hasExecutor
      ensures pingEvents == [] && received == [] && connectEvents == [] && exceptions == [] && sent == []
    {
      pingTimeout, pongTimeout := DEFAULT_PING_TIMEOUT, DEFAULT_PONG_TIMEOUT;
      pingTimer, pongTimer := Unset, Unset;
      networkDisconnect, channel, hasExecutor := false, None, false;
      disconnectEvent := new DisconnectObservable();
      reconnectStrategy := strategy;
      pingEvents, received, connectEvents, exceptions, sent := [], [], [], [], [];
      doKeepalives := true;
      new;
      strategy.SetSignalConnection(disconnectEvent);
    }

    /** A channel exists and its socket is connected. */
    function IsConnected(): (r: bool)
      reads this
      ensures r ==> channel.Some?
      ensures channel.Some? ==> (r <==> channel.value.connected)
    {
      channel.Some? && channel.value.connected
    }

    /** Opens a new channel unless one is already connected.  The socket
        connect outcome is the parameter; on success the channel's connected
        handler runs. */
    method Connect(socketConnects: bool) returns (r: Result<bool, ConnectError>)
      requires Valid()
      modifies this`channel, this`hasExecutor, this`networkDisconnect, this`connectEvents
      modifies reconnectStrategy`isStarted, reconnectStrategy`disconnectObserver, reconnectStrategy`transitions
      modifies reconnectStrategy.Bound()`observers
      ensures Valid()
      ensures old(IsConnected()) ==>
                && r == Failure(AlreadyConnected)
                && channel == old(channel) && hasExecutor == old(hasExecutor)
                && networkDisconnect == old(networkDisconnect) && connectEvents == old(connectEvents)
                && unchanged(reconnectStrategy) && unchanged(reconnectStrategy.Bound())
      ensures !old(IsConnected()) ==>
                && r == Success(socketConnects)
                && channel == Some(Channel(socketConnects)) && IsConnected() == socketConnects
                && hasExecutor && networkDisconnect == socketConnects
                && connectEvents == old(connectEvents) + (if socketConnects then [true] else [])
      ensures !old(IsConnected()) && socketConnects ==>
                reconnectStrategy.isStarted == (old(reconnectStrategy.isStarted) || reconnectStrategy.signalConnection != null)
      ensures !old(IsConnected()) && socketConnects && !old(reconnectStrategy.isStarted) && reconnectStrategy.signalConnection != null ==>
                && fresh(reconnectStrategy.disconnectObserver)
                && reconnectStrategy.signalConnection.observers
                   == old(reconnectStrategy.signalConnection.observers) + [reconnectStrategy.disconnectObserver]
      ensures !old(IsConnected()) && socketConnects && !old(reconnectStrategy.isStarted) && reconnectStrategy.signalConnection != null ==>
                reconnectStrategy.transitions == old(reconnectStrategy.transitions) + [true]
      ensures !old(IsConnected()) && socketConnects
              && (old(reconnectStrategy.isStarted) || reconnectStrategy.signalConnection == null) ==>
                unchanged(reconnectStrategy) && unchanged(reconnectStrategy.Bound())
      ensures !old(IsConnected()) && !socketConnects ==>
                unchanged(reconnectStrategy) && unchanged(reconnectStrategy.Bound())
    {
      if channel.Some? && channel.value.connected {
        return Failure(AlreadyConnected);
      }
      channel := Some(Channel(socketConnects));
      hasExecutor := true;
      networkDisconnect := socketConnects;
      if socketConnects {
        ChannelConnected();
      }
      r := Success(socketConnects);
    }

    /** The channel handler's connected callback: start the reconnect
        strategy, then notify connect observers. */
    method ChannelConnected()
      requires Valid()
      modifies this`connectEvents
      modifies reconnectStrategy`isStarted, reconnectStrategy`disconnectObserver, reconnectStrategy`transitions
      modifies reconnectStrategy.Bound()`observers
      ensures Valid()
      ensures connectEvents == old(connectEvents) + [true]
      ensures reconnectStrategy.isStarted == (old(reconnectStrategy.isStarted) || reconnectStrategy.signalConnection != null)
      ensures reconnectStrategy.signalConnection == old(reconnectStrategy.signalConnection)
      ensures !old(reconnectStrategy.isStarted) && reconnectStrategy.signalConnection != null ==>
                && fresh(reconnectStrategy.disconnectObserver)
                && reconnectStrategy.signalConnection.observers
                   == old(reconnectStrategy.signalConnection.observers) + [reconnectStrategy.disconnectObserver]
                && reconnectStrategy.transitions == old(reconnectStrategy.transitions) + [true]
      ensures old(reconnectStrategy.isStarted) || reconnectStrategy.signalConnection == null ==>
                unchanged(reconnectStrategy) && unchanged(reconnectStrategy.Bound())
    {
      reconnectStrategy.Start();
      connectEvents := connectEvents + [true];
    }

    /** The disconnect task.  It runs only while an executor exists (one is
        created by connect and discarded here); then it records whether the
        disconnect was network-caused, stops the reconnect strategy when it
        was not, closes the channel and cancels both timers without logging. */
    method Disconnect(network: bool)
      requires Valid()
      modifies this`networkDisconnect, this`channel, this`hasExecutor, this`pingTimer, this`pongTimer
      modifies reconnectStrategy`isStarted, reconnectStrategy`transitions, reconnectStrategy.Bound()`observers
      ensures Valid()
      ensures !old(hasExecutor) ==>
                && networkDisconnect == old(networkDisconnect) && channel == old(channel) && !hasExecutor
                && pingTimer == old(pingTimer) && pongTimer == old(pongTimer)
                && unchanged(reconnectStrategy) && unchanged(reconnectStrategy.Bound())
      ensures old(hasExecutor) ==>
                && networkDisconnect == network && channel == Closed(old(channel)) && !hasExecutor
                && pingTimer == Cancel(old(pingTimer)) && pongTimer == Cancel(old(pongTimer))
      ensures old(hasExecutor) && !network ==>
                && !reconnectStrategy.isStarted
                && (old(reconnectStrategy.signalConnection != null && reconnectStrategy.disconnectObserver != null) ==>
                      reconnectStrategy.signalConnection.observers
                      == Without(old(reconnectStrategy.signalConnection.observers), reconnectStrategy.disconnectObserver))
      ensures old(hasExecutor) && !network ==>
                reconnectStrategy.transitions == old(reconnectStrategy.transitions)
                  + (if old(reconnectStrategy.signalConnection != null && reconnectStrategy.disconnectObserver != null)
                     then [false] else [])
      ensures old(hasExecutor) && !network
              && old(reconnectStrategy.signalConnection == null || reconnectStrategy.disconnectObserver == null) ==>
                unchanged(reconnectStrategy.Bound())
      ensures network ==> unchanged(reconnectStrategy) && unchanged(reconnectStrategy.Bound())
    {
      if hasExecutor {
        networkDisconnect := network;
        if !networkDisconnect {
          reconnectStrategy.Stop();
        }
        channel := Closed(channel);
        hasExecutor := false;
        pingTimer := Cancel(pingTimer);
        pongTimer := Cancel(pongTimer);
      }
    }

    /** The channel handler's closed callback: a network-caused disconnect,
        then a disconnect notification carrying `networkDisconnect`. */
    method ChannelClosed()
      requires Valid()
      modifies this`networkDisconnect, this`channel, this`hasExecutor, this`pingTimer, this`pongTimer
      modifies reconnectStrategy`isStarted, reconnectStrategy`transitions, reconnectStrategy.Bound()`observers
      modifies disconnectEvent`notices, disconnectEvent.Strategies()`strategyRuns
      ensures Valid()
      ensures channel == Closed(old(channel)) && !hasExecutor
      ensures networkDisconnect == (old(hasExecutor) || old(networkDisconnect))
      ensures pingTimer == (if old(hasExecutor) then Cancel(old(pingTimer)) else old(pingTimer))
      ensures pongTimer == (if old(hasExecutor) then Cancel(old(pongTimer)) else old(pongTimer))
      ensures reconnectStrategy.isStarted == old(reconnectStrategy.isStarted)
      ensures reconnectStrategy.transitions == old(reconnectStrategy.transitions)
      ensures reconnectStrategy.signalConnection != null ==>
                reconnectStrategy.signalConnection.observers == old(reconnectStrategy.signalConnection.observers)
      ensures disconnectEvent.observers == old(disconnectEvent.observers)
      ensures disconnectEvent.notices == old(disconnectEvent.notices) + [networkDisconnect]
      ensures forall s :: s in old(disconnectEvent.Strategies()) ==>
                s.strategyRuns == old(s.strategyRuns)
                  + (if networkDisconnect && s.isStarted then Registered(disconnectEvent.observers, s) else 0)
    {
      Disconnect(true);
      channel := Closed(channel);
      disconnectEvent.NotifyObservers(networkDisconnect);
    }

    /** The channel handler's exception callback. */
    method ExceptionCaught(description: string)
      modifies this`exceptions
      ensures exceptions == old(exceptions) + [description]
    {
      exceptions := exceptions + [description];
    }

    /** Writes a command to the channel.  NettySignalConnection.send dereferences
        the channel unconditionally, so a channel must exist. */
    method Send(command: Outbound)
      requires channel.Some?
      modifies this`sent
      ensures sent == old(sent) + [command]
    {
      sent := sent + [command];
    }

    /** Cancels the pong deadline and pings immediately. */
    method Keepalive()
      modifies this`pingTimer, this`pongTimer, this`pingEvents
      ensures pongTimer == Cancel(old(pongTimer)) && pingTimer == Armed(0)
      ensures pingEvents == old(pingEvents) + CancelEvents(old(pongTimer), PongCancelled)
                              + CancelEvents(old(pingTimer), PingCancelled) + [PingScheduled]
    {
      CancelPong();
      SchedulePing(true);
    }

    /** Allows traffic to reschedule pings again; schedules nothing itself. */
    method StartKeepalives()
      modifies this`doKeepalives
      ensures doKeepalives
    {
      doKeepalives := true;
    }

    /** Stops rescheduling pings and cancels the pending one; a pending pong
        deadline still applies. */
    method StopKeepalives()
      modifies this`doKeepalives, this`pingTimer, this`pingEvents
      ensures !doKeepalives && pingTimer == Cancel(old(pingTimer))
      ensures pingEvents == old(pingEvents) + CancelEvents(old(pingTimer), PingCancelled)
    {
      doKeepalives := false;
      CancelPing();
    }

    method SetPingTimeout(pingTimeout: int)
      modifies this`pingTimeout
      ensures this.pingTimeout == pingTimeout
    {
      this.pingTimeout := pingTimeout;
    }

    method SetPongTimeout(pongTimeout: int)
      modifies this`pongTimeout
      ensures this.pongTimeout == pongTimeout
    {
      this.pongTimeout := pongTimeout;
    }

    /** Replaces the reconnect strategy: the old one is stopped, the new one
        is bound to this connection (and stopped first if it was started). */
    method SetReconnectStrategy(strategy: ReconnectStrategy)
      requires Valid() && strategy.Valid()
      modifies this`reconnectStrategy
      modifies reconnectStrategy`isStarted, reconnectStrategy`transitions, reconnectStrategy.Bound()`observers
      modifies strategy`signalConnection, strategy`isStarted, strategy`transitions, strategy.Bound()`observers
      ensures Valid() && reconnectStrategy == strategy
      ensures strategy.signalConnection == disconnectEvent && !strategy.isStarted
      ensures old(reconnectStrategy.signalConnection != null && reconnectStrategy.disconnectObserver != null) ==>
                && !old(reconnectStrategy).isStarted
                && old(reconnectStrategy).transitions == old(reconnectStrategy.transitions) + [false]
      ensures old(reconnectStrategy.signalConnection == null || reconnectStrategy.disconnectObserver == null) ==>
                old(reconnectStrategy).transitions == old(reconnectStrategy.transitions)
      ensures old(reconnectStrategy).Valid() && !old(reconnectStrategy).isStarted
      ensures strategy != old(reconnectStrategy) ==>
                strategy.transitions == old(strategy.transitions) + (if old(strategy.isStarted) then [false] else [])
      // The old strategy's connection loses the old strategy's observer, and
      // also the new strategy's observer when the new strategy was started
      // on that same connection; every other observer stays.
      ensures var c := old(reconnectStrategy.signalConnection);
              c != null ==>
                var afterStop := if old(reconnectStrategy.disconnectObserver) != null
                                 then Without(old(c.observers), old(reconnectStrategy.disconnectObserver))
                                 else old(c.observers);
                c.observers == (if strategy != old(reconnectStrategy) && old(strategy.isStarted)
                                   && old(strategy.signalConnection) == c
                                then Without(afterStop, old(strategy.disconnectObserver))
                                else afterStop)
      // The new strategy, when it was started on another connection, is
      // removed from that one.
      ensures var d := old(strategy.signalConnection);
              strategy != old(reconnectStrategy) && old(strategy.isStarted)
              && d != old(reconnectStrategy.signalConnection) ==>
                d.observers == Without(old(d.observers), old(strategy.disconnectObserver))
      // An unstarted new strategy's previous connection is left as it was.
      ensures var d := old(strategy.signalConnection);
              strategy != old(reconnectStrategy) && !old(strategy.isStarted)
              && d != null && d != old(reconnectStrategy.signalConnection) ==>
                d.observers == old(d.observers)
    {
      reconnectStrategy.Stop();
      reconnectStrategy := strategy;
      strategy.SetSignalConnection(disconnectEvent);
    }

    /** The channel handler's entry point for inbound traffic.  Messages only
        arrive through a channel. */
    method MessageReceived(message: Message)
      requires channel.Some?
      modifies this`pingTimer, this`pongTimer, this`pingEvents, this`sent, this`received
      ensures message.NotACommand? ==>
                && pingTimer == old(pingTimer) && pongTimer == old(pongTimer)
                && pingEvents == old(pingEvents) && sent == old(sent) && received == old(received)
      ensures message.Decoded? && message.command.PingPong? ==>
                && received == old(received)
                && sent == old(sent) + (if message.command.isRequest
                                        then [LongformPing(message.command.timestamp, message.command.token)]
                                        else [])
                && pongTimer == Cancel(old(pongTimer))
                && pingTimer == (if doKeepalives then Armed(pingTimeout) else old(pingTimer))
                && pingEvents == old(pingEvents)
                     + (if message.command.isRequest then [] else [PongReceived])
                     + CancelEvents(old(pongTimer), PongCancelled)
                     + (if doKeepalives then CancelEvents(old(pingTimer), PingCancelled) + [PingScheduled] else [])
      ensures message.Decoded? && message.command.Action? ==>
                && received == old(received) + [message.command]
                && sent == old(sent) && pongTimer == old(pongTimer)
                && pingTimer == (if doKeepalives then Armed(pingTimeout) else old(pingTimer))
                && pingEvents == old(pingEvents)
                     + (if doKeepalives then CancelEvents(old(pingTimer), PingCancelled) + [PingScheduled] else [])
    {
      match message
      case NotACommand =>
      case Decoded(command) =>
        if command.PingPong? {
          ReceivePong(command);
          return;
        }
        if doKeepalives {
          SchedulePing(false);
        }
        received := received + [command];
    }

    /** The scheduler runs the ping task: log, send a short-form ping and arm
        the pong deadline.  Without a channel the send throws and the task
        ends after logging. */
    method FirePingTimer()
      modifies this`pingTimer, this`pongTimer, this`pingEvents, this`sent
      ensures !old(pingTimer.Armed?) ==>
                pingTimer == old(pingTimer) && pongTimer == old(pongTimer)
                && pingEvents == old(pingEvents) && sent == old(sent)
      ensures old(pingTimer.Armed?) ==> pingTimer == Fired && pingEvents == old(pingEvents) + [PingSent]
      ensures old(pingTimer.Armed?) && channel.Some? ==>
                sent == old(sent) + [ShortformPing] && pongTimer == Armed(pongTimeout)
      ensures old(pingTimer.Armed?) && channel.None? ==>
                sent == old(sent) && pongTimer == old(pongTimer)
    {
      if pingTimer.Armed? {
        pingTimer := Fired;
        pingEvents := pingEvents + [PingSent];
        if channel.Some? {
          Send(ShortformPing);
          pongTimer := Armed(pongTimeout);
        }
      }
    }

    /** The scheduler runs the pong deadline: log the timeout and disconnect
        as a network-caused disconnect. */
    method FirePongTimer()
      requires Valid()
      modifies this`pongTimer, this`pingEvents
      modifies this`networkDisconnect, this`channel, this`hasExecutor, this`pingTimer
      modifies reconnectStrategy`isStarted, reconnectStrategy`transitions, reconnectStrategy.Bound()`observers
      ensures Valid()
      ensures unchanged(reconnectStrategy) && unchanged(reconnectStrategy.Bound())
      ensures !old(pongTimer.Armed?) ==>
                && pongTimer == old(pongTimer) && pingTimer == old(pingTimer) && pingEvents == old(pingEvents)
                && networkDisconnect == old(networkDisconnect) && channel == old(channel)
                && hasExecutor == old(hasExecutor)
      ensures old(pongTimer.Armed?) ==>
                && pongTimer == Fired && pingEvents == old(pingEvents) + [PongTimeout] && !hasExecutor
      ensures old(pongTimer.Armed?) && old(hasExecutor) ==>
                && networkDisconnect && channel == Closed(old(channel)) && pingTimer == Cancel(old(pingTimer))
      ensures old(pongTimer.Armed?) && !old(hasExecutor) ==>
                && networkDisconnect == old(networkDisconnect) && channel == old(channel)
                && pingTimer == old(pingTimer)
    {
      if pongTimer.Armed? {
        pongTimer := Fired;
        pingEvents := pingEvents + [PongTimeout];
        Disconnect(true);
      }
    }

    /** Cancels any pending ping and schedules a new one, immediately when
        `now`, else after `pingTimeout`. */
    method SchedulePing(now: bool)
      modifies this`pingTimer, this`pingEvents
      ensures pingTimer == Armed(if now then 0 else pingTimeout)
      ensures pingEvents == old(pingEvents) + CancelEvents(old(pingTimer), PingCancelled) + [PingScheduled]
    {
      CancelPing();
      pingEvents := pingEvents + [PingScheduled];
      pingTimer := Armed(if now then 0 else pingTimeout);
    }

    /** An inbound ping/pong: echo a server ping, or log the pong; then clear
        the pong deadline and reschedule the ping when keepalives are on. */
    method ReceivePong(command: Command)
      requires command.PingPong? && channel.Some?
      modifies this`pingTimer, this`pongTimer, this`pingEvents, this`sent
      ensures sent == old(sent) + (if command.isRequest then [LongformPing(command.timestamp, command.token)] else [])
      ensures pongTimer == Cancel(old(pongTimer))
      ensures pingTimer == (if doKeepalives then Armed(pingTimeout) else old(pingTimer))
      ensures pingEvents == old(pingEvents)
                + (if command.isRequest then [] else [PongReceived])
                + CancelEvents(old(pongTimer), PongCancelled)
                + (if doKeepalives then CancelEvents(old(pingTimer), PingCancelled) + [PingScheduled] else [])
    {
      if command.isRequest {
        Send(LongformPing(command.timestamp, command.token));
      } else {
        pingEvents := pingEvents + [PongReceived];
      }
      CancelPong();
      if doKeepalives {
        SchedulePing(false);
      }
    }

    method CancelPing()
      modifies this`pingTimer, this`pingEvents
      ensures pingTimer == Cancel(old(pingTimer))
      ensures pingEvents == old(pingEvents) + CancelEvents(old(pingTimer), PingCancelled)
    {
      if pingTimer.Armed? || pingTimer.Fired? {
        pingEvents := pingEvents + [PingCancelled];
        pingTimer := Cancel(pingTimer);
      }
    }

    method CancelPong()
      modifies this`pongTimer, this`pingEvents
      ensures pongTimer == Cancel(old(pongTimer))
      ensures pingEvents == old(pingEvents) + CancelEvents(old(pongTimer), PongCancelled)
    {
      if pongTimer.Armed? || pongTimer.Fired? {
        pingEvents := pingEvents + [PongCancelled];
        pongTimer := Cancel(pongTimer);
      }
    }
  }
}
