# Zipwhip API client core in Dafny

This project models the core of the Zipwhip Java API client in Dafny and proves properties about that model:

- **The signal socket connection** (`NettySignalConnection`). It owns one channel and the ping/pong keepalive timers. It reports disconnects to the bound reconnect strategy. A pending ping or pong deadline is a timer slot value. The scheduler running a task is an explicit call.
- **The reconnect strategy base class** (`ReconnectStrategy`). It binds to a connection's disconnect observable, starts and stops observing it, and runs `doStrategy` only for network-caused disconnects while started.
- **The version manager** (`VersionManager`). It keeps the highest version seen per key. It is modelled as a class over a `map`, specified by a replay of its call history. One lemma proves that the stored value is the maximum of the versions set for the key since the last clear.
- **The version map entry** (`VersionMapEntry`). A mutable key/value cell with Java's null-aware `equals` and a 32-bit `hashCode`.
- **The server disconnect command** (`DisconnectCommand`). Constant host, port, delay and stop fields, and a mutable ban flag.
- **The API client's settings-store decisions** (`DefaultZipwhipClient`):
  - when `connect` invalidates the stored client id and session key;
  - what the new-client-id observer stores, and which signals requests it issues;
  - the guards of `disconnect`, `messageRead` and `messageDelete`, and the type normalisation of `saveGroup`.

Files:

- `wrappers.dfy`: `Option` and `Result`.
- `commands.dfy`: the decoded commands and `DisconnectCommand`.
- `reconnect.dfy`: disconnect observers, the observable, and `ReconnectStrategy`.
- `signal_connection.dfy`: `NettySignalConnection`.
- `keepalive_scenarios.dfy`: end-to-end runs of the connection with a strategy.
- `version_manager.dfy`: `VersionManager` and its reference replay.
- `version_map_entry.dfy`: `VersionMapEntry`.
- `zipwhip_client.dfy`: `DefaultZipwhipClient`.

Some of the code's behaviour differs from what its own comments and the class's purpose suggest. The model follows the code:

- A caller's `disconnect(false)` does not always stop the reconnect strategy, although the comment at NettySignalConnection.java:147 says a non-automatic disconnect stops the retry logic. The disconnect task is submitted only while an executor exists. Connect creates the executor and every disconnect task discards it. So a caller disconnect that arrives after a network-caused disconnect does nothing at all, and the strategy stays started (`KeepaliveScenarios.CallerDisconnectAfterNetworkLossIsIgnored`).
- The disconnect task notifies disconnect observers only indirectly. Its `channel.close()` raises the channel's closed callback, and that callback sends the notice with the current `networkDisconnect` flag.
- `cancelPing` and `cancelPong` log a cancellation for a future that has already run, because such a future is not "cancelled". A task that has run stays in its run state.
- When the new-client-id observer sees a changed client id, it clears the settings store, which also removes the session key. The next `connect` then finds no stored session key, clears the store again, and hands the provider a null client id (`ZipwhipClient.ChangedClientIdIsResubscribed`).

## Model

| member | source | states |
|---|---|---|
| SignalCommands.ACTION | src/main/java/com/zipwhip/api/signals/commands/DisconnectCommand.java:9 | the action name of the disconnect command is "disconnect" |
| SignalCommands.DisconnectCommand.constructor | src/main/java/com/zipwhip/api/signals/commands/DisconnectCommand.java:31-37 | every getter returns the value it was built with |
| SignalCommands.DisconnectCommand.SetBan | src/main/java/com/zipwhip/api/signals/commands/DisconnectCommand.java:59-61 | ban becomes the argument; the other four fields are constants |
| VersionLedger.Apply | src/main/java/com/zipwhip/api/signals/VersionManager.java:26-38 | a clear empties the map; a set keeps every other key, adds the key and stores the larger of the old and new versions; the map changes exactly when the set is accepted (no entry, or a strictly higher version) |
| VersionLedger.ReplayIsHighestSinceClear | src/main/java/com/zipwhip/api/signals/VersionManager.java:18-38 | after any call history, a key is present exactly when it was set since the last clear, and its value is the highest version set for it since then |
| VersionLedger.SetVersionReportsRaise | src/main/java/com/zipwhip/api/signals/VersionManager.java:26-33 | setVersion returns true exactly when the key was absent or the new version is strictly higher than the stored one |
| VersionLedger.VersionManager.GetVersions | src/main/java/com/zipwhip/api/signals/VersionManager.java:18-23 | the returned map holds, for every key set since the last clear, the highest version set for it, and no other key |
| VersionLedger.VersionManager.SetVersion | src/main/java/com/zipwhip/api/signals/VersionManager.java:26-33 | stores the version only when it raises the key's version, and reports whether it did |
| VersionLedger.VersionManager.ClearVersions | src/main/java/com/zipwhip/api/signals/VersionManager.java:35-38 | the map becomes empty |
| VersionLedger.LowerVersionIsRefused | src/main/java/com/zipwhip/api/signals/VersionManager.java:26-33 | setting sub1 to 5 then to 3 accepts the first, refuses the second, and getVersions then reports exactly sub1 at 5 |
| VersionEntry.VersionMapEntry.constructor | src/main/java/com/zipwhip/api/signals/VersionMapEntry.java:17-20 | key and value are the arguments |
| VersionEntry.VersionMapEntry.SetValue | src/main/java/com/zipwhip/api/signals/VersionMapEntry.java:30-36 | returns the previous value, stores the new one, keeps the key |
| VersionEntry.VersionMapEntry.Equals | src/main/java/com/zipwhip/api/signals/VersionMapEntry.java:38-49 | reflexive; false for null and for objects of another class; otherwise true exactly when keys and values are equal, two nulls counting as equal |
| VersionEntry.VersionMapEntry.HashCode | src/main/java/com/zipwhip/api/signals/VersionMapEntry.java:51-56 | 0 for an entry with two nulls; the long hash of the value when only the key is null; always a Java int |
| VersionEntry.ToInt32 | src/main/java/com/zipwhip/api/signals/VersionMapEntry.java:51-56 | Java int arithmetic: congruent to its argument modulo 2^32, and the identity on the int range |
| VersionEntry.EqualEntriesHashAlike | src/main/java/com/zipwhip/api/signals/VersionMapEntry.java:38-56 | equality is symmetric, and equal entries have equal hash codes, whatever String's and Long's hash functions are |
| Reconnect.Registered | src/main/java/com/zipwhip/api/signals/reconnect/ReconnectStrategy.java:79-91 | the number of a strategy's observers on the observable is zero exactly when none of them belongs to it, and never more than the number of observers |
| Reconnect.Without | src/main/java/com/zipwhip/api/signals/sockets/netty/NettySignalConnection.java:237-239 | removing an observer leaves only observers that were there and differ from it, and keeps every one that differs from it |
| Reconnect.DisconnectObserver.Notify | src/main/java/com/zipwhip/api/signals/reconnect/ReconnectStrategy.java:82-88 | the owning strategy's doStrategy runs exactly when the disconnect was network-generated and the strategy is started |
| Reconnect.DisconnectObservable.AddObserver | src/main/java/com/zipwhip/api/signals/sockets/netty/NettySignalConnection.java:227-229 | the observer is appended |
| Reconnect.DisconnectObservable.RemoveObserver | src/main/java/com/zipwhip/api/signals/sockets/netty/NettySignalConnection.java:237-239 | every occurrence of the observer is removed and every other observer kept |
| Reconnect.DisconnectObservable.NotifyObservers | src/main/java/com/zipwhip/api/signals/sockets/netty/NettySignalConnection.java:376 | the notice is logged once, and each strategy's doStrategy runs once per observer of it for a network-generated notice while it is started, and not otherwise |
| Reconnect.ReconnectStrategy.constructor | src/main/java/com/zipwhip/api/signals/reconnect/ReconnectStrategy.java:20-23 | unbound, no observer, not started |
| Reconnect.ReconnectStrategy.IsStarted | src/main/java/com/zipwhip/api/signals/reconnect/ReconnectStrategy.java:100-102 | true exactly when the last start/stop transition was a start |
| Reconnect.ReconnectStrategy.DoStrategy | src/main/java/com/zipwhip/api/signals/reconnect/ReconnectStrategy.java:104-108 | one more run of the strategy hook, nothing else changes |
| Reconnect.ReconnectStrategy.Stop | src/main/java/com/zipwhip/api/signals/reconnect/ReconnectStrategy.java:56-64 | with a connection and an observer, the observer is removed from the connection and the strategy is stopped; otherwise nothing changes |
| Reconnect.ReconnectStrategy.Start | src/main/java/com/zipwhip/api/signals/reconnect/ReconnectStrategy.java:71-94 | when not started and bound, a fresh observer owned by the strategy is appended to the connection and the strategy is started; otherwise nothing changes |
| Reconnect.ReconnectStrategy.SetSignalConnection | src/main/java/com/zipwhip/api/signals/reconnect/ReconnectStrategy.java:31-38 | a started strategy is stopped first; the new connection is bound; the strategy is not started afterwards |
| SignalConnection.NettySignalConnection.constructor | src/main/java/com/zipwhip/api/signals/sockets/netty/NettySignalConnection.java:80-92 | default ping and pong timeouts, keepalives on, no channel, no executor, empty logs; the strategy is bound to this connection and not started; a strategy started elsewhere is stopped first, its observer taken off its previous connection and a stop recorded, while an unstarted strategy's previous connection and transitions are left as they were |
| SignalConnection.NettySignalConnection.IsConnected | src/main/java/com/zipwhip/api/signals/sockets/netty/NettySignalConnection.java:211-214 | connected only when a channel exists, and then exactly when its socket is connected |
| SignalConnection.NettySignalConnection.Connect | src/main/java/com/zipwhip/api/signals/sockets/netty/NettySignalConnection.java:94-131 | fails and changes nothing while a channel is connected; otherwise a new channel, an executor, networkDisconnect set to the socket outcome, and on success the connected handler's effects (a start recorded, or the strategy and its connection untouched when it was already started or unbound); a failed socket leaves the strategy untouched |
| SignalConnection.NettySignalConnection.ChannelConnected | src/main/java/com/zipwhip/api/signals/sockets/netty/NettySignalConnection.java:357-367 | the strategy is started (observer appended if it was not started and is bound), and one connect event is logged |
| SignalConnection.NettySignalConnection.Disconnect | src/main/java/com/zipwhip/api/signals/sockets/netty/NettySignalConnection.java:138-177 | without an executor nothing changes; otherwise networkDisconnect is recorded, a caller disconnect stops the strategy, removes its observer and records a stop (its connection untouched when it has no observer), a network disconnect leaves the strategy untouched, the channel is closed, the executor dropped and both timers cancelled |
| SignalConnection.NettySignalConnection.ChannelClosed | src/main/java/com/zipwhip/api/signals/sockets/netty/NettySignalConnection.java:369-379 | a network disconnect runs, then one notice carrying networkDisconnect is sent, running each started strategy's hook once per observer when the notice is network-caused; the strategy's started state, transitions and its connection's observers stay as they were |
| SignalConnection.NettySignalConnection.ExceptionCaught | src/main/java/com/zipwhip/api/signals/sockets/netty/NettySignalConnection.java:381-387 | the exception's description is logged |
| SignalConnection.NettySignalConnection.Send | src/main/java/com/zipwhip/api/signals/sockets/netty/NettySignalConnection.java:205-209 | the command is written to the channel |
| SignalConnection.NettySignalConnection.Keepalive | src/main/java/com/zipwhip/api/signals/sockets/netty/NettySignalConnection.java:179-186 | the pong deadline is cancelled and a ping is scheduled immediately, with the matching events |
| SignalConnection.NettySignalConnection.StartKeepalives | src/main/java/com/zipwhip/api/signals/sockets/netty/NettySignalConnection.java:188-194 | keepalives are on; no timer changes |
| SignalConnection.NettySignalConnection.StopKeepalives | src/main/java/com/zipwhip/api/signals/sockets/netty/NettySignalConnection.java:196-203 | keepalives are off and the pending ping is cancelled |
| SignalConnection.NettySignalConnection.SetPingTimeout | src/main/java/com/zipwhip/api/signals/sockets/netty/NettySignalConnection.java:266-269 | the ping timeout becomes the argument |
| SignalConnection.NettySignalConnection.SetPongTimeout | src/main/java/com/zipwhip/api/signals/sockets/netty/NettySignalConnection.java:276-279 | the pong timeout becomes the argument |
| SignalConnection.NettySignalConnection.SetReconnectStrategy | src/main/java/com/zipwhip/api/signals/sockets/netty/NettySignalConnection.java:286-297 | the old strategy is stopped: its observer is removed from its connection, every other observer kept, and a stop recorded when it had a connection and an observer; the new one is installed, bound to this connection and not started, and if it was started elsewhere its observer is removed from that connection; an old strategy without a connection or observer stays stopped, and an unstarted new strategy's previous connection is left as it was |
| SignalConnection.NettySignalConnection.MessageReceived | src/main/java/com/zipwhip/api/signals/sockets/netty/NettySignalConnection.java:326-355 | a non-command changes nothing; a ping/pong goes to the pong handler and is not delivered; any other command reschedules the ping when keepalives are on and is delivered |
| SignalConnection.NettySignalConnection.FirePingTimer | src/main/java/com/zipwhip/api/signals/sockets/netty/NettySignalConnection.java:423-444 | a pending ping task logs PING_SENT and, with a channel, sends a short-form ping and arms the pong deadline with the pong timeout |
| SignalConnection.NettySignalConnection.FirePongTimer | src/main/java/com/zipwhip/api/signals/sockets/netty/NettySignalConnection.java:432-441 | a pending pong deadline logs PONG_TIMEOUT and runs a network-caused disconnect, which never stops the strategy |
| SignalConnection.NettySignalConnection.SchedulePing | src/main/java/com/zipwhip/api/signals/sockets/netty/NettySignalConnection.java:416-445 | the pending ping is cancelled and a new one armed with delay 0 or the ping timeout |
| SignalConnection.NettySignalConnection.ReceivePong | src/main/java/com/zipwhip/api/signals/sockets/netty/NettySignalConnection.java:447-471 | a server ping is echoed in long form with its timestamp and token, a pong is logged; the pong deadline is cancelled and the ping rescheduled when keepalives are on |
| SignalConnection.NettySignalConnection.CancelPing | src/main/java/com/zipwhip/api/signals/sockets/netty/NettySignalConnection.java:473-485 | the ping future is cancelled, logging PING_CANCELLED when it was non-null and not cancelled |
| SignalConnection.NettySignalConnection.CancelPong | src/main/java/com/zipwhip/api/signals/sockets/netty/NettySignalConnection.java:487-496 | the pong future is cancelled, logging PONG_CANCELLED when it was non-null and not cancelled |
| KeepaliveScenarios.PongTimeoutRunsStrategyOnce | src/main/java/com/zipwhip/api/signals/sockets/netty/NettySignalConnection.java:423-444 | connect, traffic, an unanswered ping: exactly one short-form ping is sent, the pong deadline fires, and the close runs the strategy hook exactly once |
| KeepaliveScenarios.PongInTimeReschedules | src/main/java/com/zipwhip/api/signals/sockets/netty/NettySignalConnection.java:447-471 | a pong before the deadline cancels it and re-arms the ping with the default ping timeout; no disconnect is reported |
| KeepaliveScenarios.CallerDisconnectNeverReconnects | src/main/java/com/zipwhip/api/signals/sockets/netty/NettySignalConnection.java:145-150 | a caller disconnect stops the strategy; the close that follows reports a non-network disconnect and the hook never runs |
| KeepaliveScenarios.ServerPingIsEchoed | src/main/java/com/zipwhip/api/signals/sockets/netty/NettySignalConnection.java:449-459 | a server ping is answered by exactly one long-form pong carrying its timestamp and token, and is not delivered as a command |
| KeepaliveScenarios.SecondConnectFails | src/main/java/com/zipwhip/api/signals/sockets/netty/NettySignalConnection.java:97-100 | a second connect while connected fails |
| KeepaliveScenarios.ConnectedOnlyWhileSocketIsUp | src/main/java/com/zipwhip/api/signals/sockets/netty/NettySignalConnection.java:97-100 | a failed socket connect leaves the connection unconnected and a retry succeeds; a caller disconnect leaves it unconnected |
| KeepaliveScenarios.CallerDisconnectAfterNetworkLossIsIgnored | src/main/java/com/zipwhip/api/signals/sockets/netty/NettySignalConnection.java:172-174 | after a network disconnect and its close, a caller disconnect does nothing: the strategy stays started |
| ZipwhipClient.GroupType | src/main/java/com/zipwhip/api/DefaultZipwhipClient.java:450-455 | the result always starts with "Group"; a given type that starts with "Group" is kept, anything else becomes "Group" |
| ZipwhipClient.InvalidateOnConnect | src/main/java/com/zipwhip/api/DefaultZipwhipClient.java:130-147 | a new session key leaves only that key stored; a missing or contradicted client id empties the store, keeping only a given session key; a confirmed client id with an unchanged session leaves the store intact |
| ZipwhipClient.InvalidationKeepsOnlyConfirmedClientId | src/main/java/com/zipwhip/api/DefaultZipwhipClient.java:130-150 | the client id passed to the provider on connect was already stored, is not empty, and does not contradict the provider's own |
| ZipwhipClient.InvalidationIsIdempotent | src/main/java/com/zipwhip/api/DefaultZipwhipClient.java:130-147 | invalidating twice with the same client id and session key equals invalidating once |
| ZipwhipClient.DefaultZipwhipClient.constructor | src/main/java/com/zipwhip/api/DefaultZipwhipClient.java:38-44 | the client starts with the given connection, provider client id and store, and no requests |
| ZipwhipClient.DefaultZipwhipClient.Connect | src/main/java/com/zipwhip/api/DefaultZipwhipClient.java:123-151 | refused unless connected and authenticated; otherwise the store is invalidated and the provider connects with the stored client id |
| ZipwhipClient.DefaultZipwhipClient.Disconnect | src/main/java/com/zipwhip/api/DefaultZipwhipClient.java:154-161 | refused unless connected; otherwise one provider disconnect |
| ZipwhipClient.DefaultZipwhipClient.OnNewClientIdReceived | src/main/java/com/zipwhip/api/DefaultZipwhipClient.java:50-104 | an empty id is ignored; without a session the id is stored; an unchanged id does nothing; a changed id clears the store, stores the id, and issues signals/disconnect then signals/connect unless the first throws; a first id is stored and issues signals/connect |
| ZipwhipClient.DefaultZipwhipClient.MessageRead | src/main/java/com/zipwhip/api/DefaultZipwhipClient.java:222-232 | a null or empty list returns false without a request; otherwise one message/read request with the uuids, returning the server's success |
| ZipwhipClient.DefaultZipwhipClient.MessageDelete | src/main/java/com/zipwhip/api/DefaultZipwhipClient.java:235-245 | a null or empty list returns false without a request; otherwise one message/delete request with the uuids, returning the server's success |
| ZipwhipClient.DefaultZipwhipClient.SaveGroup | src/main/java/com/zipwhip/api/DefaultZipwhipClient.java:446-464 | one group/save request whose type is the normalised type and which carries the advertisement exactly when one is given |
| ZipwhipClient.ChangedClientIdIsResubscribed | src/main/java/com/zipwhip/api/DefaultZipwhipClient.java:64-86 | a changed client id resubscribes and keeps only the new id; the next connect then hands the provider no client id |

## Left out

- Netty's pipeline, the frame decoder, the command codec and the socket address are not modelled. The connection receives decoded commands, and the socket connect outcome is a parameter of `Connect`.
- Executors and scheduled futures are not modelled as threads. Each connect or disconnect task runs to completion inside the call. The scheduler running a ping or pong task is the explicit `FirePingTimer` or `FirePongTimer`. Races between the channel's callbacks and those tasks are not modelled. Neither is the 45-second connect await (`CONNECTION_TIMEOUT_SECONDS`).
- SignalConnection.NettySignalConnection.Disconnect: the channel's closed callback, which the disconnect task's `channel.close()` raises and which sends the disconnect notice, is not run inside `Disconnect`. The model leaves it to an explicit `ChannelClosed` call after `Disconnect`, after a `FirePongTimer` that disconnects, or after a caller disconnect. In NettySignalConnection that callback may run during the close await, before the executor is shut down and before the ping and pong timers are cancelled; the model always runs it after those steps.
- A pong deadline armed while an older one is still pending overwrites the older one's slot (this can happen when the pong timeout exceeds the ping timeout). The model keeps one slot and drops the older task. In NettySignalConnection only the reference to that task is lost: the task itself still fires `disconnect(true)` when its deadline passes, and no later `cancelPong` can reach it. The model does not capture that late disconnect.
- Observers of ping events, received commands, connect events and exceptions are append-only logs. Observer dispatch order and observer exceptions are not modelled.
- The lifecycle links and `destroy` calls (the connection's `onDestroy`, and the old strategy's `destroy` in `setReconnectStrategy`) are not modelled. Neither are `onSocketActivity`, `host`, `port` and the plain getters.
- SignalConnection.NettySignalConnection.Send: a write on a closed channel is logged like any other. Netty's failure of that write is not modelled.
- A null timestamp or token in a ping/pong command is not modelled. Both are plain values.
- The no-argument `disconnect()` is `Disconnect(false)`. The no-argument client `connect()` is client `Connect` without presence.
- ZipwhipClient.DefaultZipwhipClient.Connect: the presence argument and the versions store passed to the provider are not modelled. The provider's future is not modelled either.
- The client's version-changed observer is not modelled, because the versions store it writes to is not part of this model.
- The settings store, `StringUtil` and the response parser are assumed to behave as their names say. The store is a map, `isNullOrEmpty` tests for null or "", and a response's success is a parameter.
- The endpoint URL constants belong to the network support base class. That class is not part of this model, so endpoints are symbolic.
- VersionEntry.VersionMapEntry.HashCode: String's and Long's hash functions are parameters. The contract states the null cases and that the result is an int, not the value for arbitrary hash functions.
- The client's other API calls (sending messages, contacts, presence, carbon and sessions) are outside the modelled core.
