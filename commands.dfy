/** The commands that travel over the signal connection, already decoded
    (DisconnectCommand.java, and the command kinds NettySignalConnection.java
    dispatches on). */
module SignalCommands {

  /** The action name of the server's disconnect directive. */
  const ACTION: string := "disconnect"

  /** A decoded inbound command.  A ping/pong carries whether it is a request
      (a ping from the server) and the timestamp and token to echo; every other
      command is known here only by its action name. */
  datatype Command =
    | PingPong(isRequest: bool, timestamp: int, token: string)
    | Action(name: string)

  /** What the frame decoder hands to the connection's handler: either a
      decoded command or some other object. */
  datatype Message = NotACommand | Decoded(command: Command)

  /** A command written to the channel: the short-form ping the client sends,
      the long-form reply to a server ping, or another serializing command. */
  datatype Outbound =
    | ShortformPing
    | LongformPing(timestamp: int, token: string)
    | Serialized(name: string)

  /** The server's instruction to disconnect.  host, port, reconnectDelay and
      stop are fixed at construction; only ban has a setter. */
  class DisconnectCommand {
    const host: string
    const port: int
    const reconnectDelay: int
    const stop: bool
    var ban: bool

    constructor (host: string, port: int, reconnectDelay: int, stop: bool, ban: bool)
      ensures GetHost() == host && GetPort() == port && GetReconnectDelay() == reconnectDelay
      ensures IsStop() == stop && IsBan() == ban
    {
      this.host := host;
      this.port := port;
      this.reconnectDelay := reconnectDelay;
      this.stop := stop;
      this.ban := ban;
    }

    /** Host to reconnect to; the empty string means no change. */
    function GetHost(): string { host }

    /** Port to reconnect to; DisconnectCommand's javadoc documents an empty value as no change. */
    function GetPort(): int { port }

    /** Milliseconds to wait before reconnecting. */
    function GetReconnectDelay(): int { reconnectDelay }

    /** When true, the client is not to reconnect. */
    function IsStop(): bool { stop }

    /** When true, the server refuses reconnects with the same client id. */
    function IsBan(): bool reads this { ban }

    /** Changes ban only: the other four fields are constants of the object. */
    method SetBan(ban: bool)
      modifies this`ban
      ensures IsBan() == ban
    {
      this.ban := ban;
    }
  }
}
