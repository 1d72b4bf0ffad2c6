/** End-to-end runs of the keepalive protocol over a fresh connection and a
    fresh reconnect strategy, proved from the operations' contracts alone. */
module KeepaliveScenarios {
  import opened Wrappers
  import opened SignalCommands
  import opened Reconnect
  import opened SignalConnection

  /** A fresh connection with a fresh strategy, just connected: the strategy
      observes the connection through one fresh observer and nothing is
      scheduled yet. */
  method FreshlyConnected() returns (strategy: ReconnectStrategy, connection: NettySignalConnection)
    ensures fresh(strategy) && fresh(connection) && fresh(connection.disconnectEvent)
    ensures fresh(strategy.disconnectObserver)
    ensures connection.Valid() && connection.reconnectStrategy == strategy
    ensures strategy.signalConnection == connection.disconnectEvent
    ensures strategy.isStarted && strategy.strategyRuns == 0
    ensures connection.disconnectEvent.observers == [strategy.disconnectObserver]
    ensures strategy.disconnectObserver.strategy == strategy
    ensures connection.disconnectEvent.notices == []
    ensures connection.pingEvents == [] && connection.sent == []
    ensures connection.pingTimer == Unset && connection.pongTimer == Unset
    ensures connection.pingTimeout == DEFAULT_PING_TIMEOUT && connection.pongTimeout == DEFAULT_PONG_TIMEOUT
    ensures connection.doKeepalives && connection.hasExecutor && connection.IsConnected()
  {
    strategy := new ReconnectStrategy();
    connection := new NettySignalConnection(strategy);
    var outcome := connection.Connect(true);
  }

  /** A fresh connection with a fresh strategy, connected, after one inbound
      command: the strategy observes the connection and a ping is pending. */
  method ConnectedAfterTraffic() returns (strategy: ReconnectStrategy, connection: NettySignalConnection)
    ensures fresh(strategy) && fresh(connection) && fresh(connection.disconnectEvent)
    ensures fresh(strategy.disconnectObserver)
    ensures connection.Valid() && connection.reconnectStrategy == strategy
    ensures strategy.signalConnection == connection.disconnectEvent
    ensures strategy.isStarted && strategy.strategyRuns == 0
    ensures connection.disconnectEvent.observers == [strategy.disconnectObserver]
    ensures connection.disconnectEvent.notices == []
    ensures connection.pingEvents == [PingScheduled] && connection.sent == []
    ensures connection.pingTimer == Armed(DEFAULT_PING_TIMEOUT) && connection.pongTimer == Unset
    ensures connection.pingTimeout == DEFAULT_PING_TIMEOUT && connection.pongTimeout == DEFAULT_PONG_TIMEOUT
    ensures connection.doKeepalives && connection.hasExecutor && connection.IsConnected()
  {
    strategy, connection := FreshlyConnected();
    connection.MessageReceived(Decoded(Action("connect")));
  }

  /** Connected, then traffic, then silence: the ping goes out, nothing comes
      back, the pong deadline disconnects, and when the channel reports the
      close the strategy's decision hook runs exactly once. */
  method PongTimeoutRunsStrategyOnce() returns (runs: nat, events: seq<PingEvent>, sent: seq<Outbound>, notices: seq<bool>)
    ensures runs == 1
    ensures events == [PingScheduled, PingSent, PongTimeout]
    ensures sent == [ShortformPing]
    ensures notices == [true]
  {
    var strategy, connection := ConnectedAfterTraffic();
    connection.FirePingTimer();
    connection.FirePongTimer();
    assert connection.disconnectEvent.observers == [strategy.disconnectObserver];
    assert connection.disconnectEvent.observers[0].strategy == strategy;
    assert strategy in connection.disconnectEvent.Strategies();
    connection.ChannelClosed();
    assert connection.disconnectEvent.observers[..0] == [];
    runs, events, sent, notices := strategy.strategyRuns, connection.pingEvents, connection.sent, connection.disconnectEvent.notices;
  }

  /** The pong arrives before the deadline: the deadline is cancelled, the
      next ping is rescheduled after the ping timeout, and no disconnect
      happens. */
  method PongInTimeReschedules() returns (events: seq<PingEvent>, ping: Timer, pong: Timer, notices: seq<bool>, connected: bool)
    ensures events == [PingScheduled, PingSent, PongReceived, PongCancelled, PingCancelled, PingScheduled]
    ensures ping == Armed(DEFAULT_PING_TIMEOUT) && pong == Cancelled
    ensures notices == [] && connected
  {
    var strategy, connection := ConnectedAfterTraffic();
    connection.FirePingTimer();
    connection.MessageReceived(Decoded(PingPong(false, 0, "")));
    events, ping, pong := connection.pingEvents, connection.pingTimer, connection.pongTimer;
    notices, connected := connection.disconnectEvent.notices, connection.IsConnected();
  }

  /** A caller-initiated disconnect stops the strategy, and the close that
      follows reports a non-network disconnect: the hook never runs. */
  method CallerDisconnectNeverReconnects() returns (runs: nat, started: bool, notices: seq<bool>)
    ensures runs == 0 && !started && notices == [false]
  {
    var strategy := new ReconnectStrategy();
    var connection := new NettySignalConnection(strategy);
    var outcome := connection.Connect(true);
    connection.Disconnect(false);
    connection.ChannelClosed();
    runs, started, notices := strategy.strategyRuns, strategy.isStarted, connection.disconnectEvent.notices;
  }

  /** A server ping is answered with one long-form pong echoing its
      timestamp and token, whatever the local schedule. */
  method ServerPingIsEchoed(timestamp: int, token: string) returns (sent: seq<Outbound>, received: seq<Command>)
    ensures sent == [LongformPing(timestamp, token)]
    ensures received == []
  {
    var strategy := new ReconnectStrategy();
    var connection := new NettySignalConnection(strategy);
    var outcome := connection.Connect(true);
    connection.StopKeepalives();
    connection.MessageReceived(Decoded(PingPong(true, timestamp, token)));
    sent, received := connection.sent, connection.received;
  }

  /** A second connect while connected fails before touching the channel. */
  method SecondConnectFails() returns (first: Result<bool, ConnectError>, second: Result<bool, ConnectError>)
    ensures first == Success(true) && second == Failure(AlreadyConnected)
  {
    var strategy := new ReconnectStrategy();
    var connection := new NettySignalConnection(strategy);
    first := connection.Connect(true);
    second := connection.Connect(true);
  }

  /** After a network-caused disconnect has torn the connection down, the
      executor is gone, so a later caller disconnect does not run at all and
      the strategy stays started. */
  method CallerDisconnectAfterNetworkLossIsIgnored() returns (runs: nat, started: bool)
    ensures runs == 1 && started
  {
    var strategy, connection := FreshlyConnected();
    connection.Disconnect(true);
    assert connection.disconnectEvent.observers[0].strategy == strategy;
    assert strategy in connection.disconnectEvent.Strategies();
    connection.ChannelClosed();
    assert connection.disconnectEvent.observers[..0] == [];
    connection.Disconnect(false);
    runs, started := strategy.strategyRuns, strategy.isStarted;
  }

  /** The connection counts as connected only while a channel's socket is
      up: a failed socket connect leaves it unconnected and a retry is
      allowed; a caller disconnect ends the connection. */
  method ConnectedOnlyWhileSocketIsUp() returns (afterFailure: bool, retry: Result<bool, ConnectError>,
                                                 afterConnect: bool, afterDisconnect: bool)
    ensures !afterFailure && retry == Success(true) && afterConnect && !afterDisconnect
  {
    var strategy := new ReconnectStrategy();
    var connection := new NettySignalConnection(strategy);
    var first := connection.Connect(false);
    afterFailure := connection.IsConnected();
    retry := connection.Connect(true);
    afterConnect := connection.IsConnected();
    connection.Disconnect(false);
    afterDisconnect := connection.IsConnected();
  }
}
