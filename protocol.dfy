/**
 * The identifiers and the outbound protocol messages of the audio node: what a
 * session writes to its client's websocket.
 */
module Protocol {
  import opened Wrappers

  /** A session id: 16 characters of the lower-case alphanumeric pool. */
  type SessionId = string

  /** A guild (Discord server) id, a snowflake. */
  type GuildId = nat

  /** Average frame counts per playing player over the last minute. */
  datatype FrameStats = FrameStats(sent: real, nulled: real, deficit: real)

  /** Host memory in bytes (`allocated` is renamed, being a Dafny keyword). */
  datatype Memory = Memory(free: int, used: int, allocatedBytes: int, reservable: int)

  datatype Cpu = Cpu(cores: nat, systemLoad: real, lavalinkLoad: real)

  /** The body of a `stats` message. */
  datatype Stats = Stats(
    frameStats: Option<FrameStats>,
    playersTotal: nat,
    playersPlaying: nat,
    uptime: real,
    memory: Memory,
    cpu: Cpu)

  datatype Message =
    /** `ready {resumed, sessionId}`, sent when a new session is opened. */
    | Ready(resumed: bool, sessionId: SessionId)
    /** `{type: 'ready', ready: true, sessionId}`, sent when a paused session is resumed. */
    | ResumeReady(sessionId: SessionId)
    /** A full `playerUpdate` carrying the player's current state. */
    | PlayerUpdate(guildId: GuildId)
    /** A `playerUpdate` whose state reports the voice connection as closed. */
    | ConnectionClosedUpdate(guild: string, code: int, reason: string, byRemote: bool)
    | StatsEvent(stats: Stats)
    /** Any other event forwarded from a player or the gateway. */
    | Forwarded(payload: string)
}
