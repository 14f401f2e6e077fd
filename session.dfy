/**
 * One client session of the audio node (io/SocketContext.js): its guild-to-player
 * map, its `resumable` flag and resume timeout, the websocket it currently writes
 * to, the pending resume timer and the queue of messages replayed on resume.
 *
 * Everything the session does to the outside world (emitting an event, writing a
 * message to the websocket, destroying a player or a voice connection, shutting
 * down) is appended to a `Trace` shared by all sessions of one server, so that the
 * order of those effects can be stated across objects.
 */
module Session {
  import opened Wrappers
  import opened JsMaps
  import opened Protocol
  import JsText

  /** A client's websocket. The server tags it with the id of the session it opened. */
  class WebSocket {
    var sessionId: Option<SessionId>

    constructor()
      ensures sessionId == None
    {
      sessionId := None;
    }
  }

  /** The events a session emits on its event emitter. */
  datatype ContextEvent =
    | NewPlayer(player: LavalinkPlayer)
    | DestroyPlayer(player: LavalinkPlayer)
    | Pause
    | SendMessage(message: Message)
    | WebSocketOpen(resumed: bool)
    | GatewayClosed(target: GuildId, code: int, reason: string)

  /** One observable effect, in the order it happened. */
  datatype Effect =
    | Emitted(context: SocketContext, event: ContextEvent)
    | Wrote(socket: WebSocket, message: Message)
    | PlayerDestroyed(player: LavalinkPlayer)
    | ConnectionDestroyed(context: SocketContext, guildId: GuildId)
    | ContextShutdown(context: SocketContext)
    | CloseAttempt(context: SocketContext, code: int, threw: bool)

  /** The log of effects of every session of one server. */
  class Trace {
    var events: seq<Effect>

    constructor()
      ensures events == []
    {
      events := [];
    }

    method Record(e: Effect)
      modifies this
      ensures events == old(events) + [e]
    {
      events := events + [e];
    }
  }

  /** A scheduled `setTimeout`: after `delayMs` it calls `onSessionResumeTimeout(target)`. */
  datatype PendingTimeout = PendingTimeout(delayMs: int, target: SocketContext)

  /** A guild's audio player. Its playback lives outside this model; it knows its session and guild. */
  class LavalinkPlayer {
    const socketContext: SocketContext
    const guildId: GuildId

    constructor(socketContext: SocketContext, guildId: GuildId)
      ensures this.socketContext == socketContext && this.guildId == guildId
    {
      this.socketContext := socketContext;
      this.guildId := guildId;
    }
  }

  /** The effects of `sendMessage` for each of `ms` in turn, when the session writes to `dest`. */
  function SendEffects(c: SocketContext, dest: Option<WebSocket>, ms: seq<Message>): seq<Effect> {
    if ms == [] then []
    else
      [Emitted(c, SendMessage(ms[0]))] + (if dest.Some? then [Wrote(dest.value, ms[0])] else [])
      + SendEffects(c, dest, ms[1..])
  }

  /** The messages written to `ws`, in order. */
  function Writes(effects: seq<Effect>, ws: WebSocket): seq<Message> {
    if effects == [] then []
    else
      (if effects[0].Wrote? && effects[0].socket == ws then [effects[0].message] else [])
      + Writes(effects[1..], ws)
  }

  lemma {:induction false} SendEffectsAppend(c: SocketContext, dest: Option<WebSocket>, a: seq<Message>, b: seq<Message>)
    ensures SendEffects(c, dest, a + b) == SendEffects(c, dest, a) + SendEffects(c, dest, b)
  {
    if a != [] {
      assert (a + b)[1..] == a[1..] + b;
      SendEffectsAppend(c, dest, a[1..], b);
    } else {
      assert a + b == b;
    }
  }

  lemma {:induction false} WritesAppend(a: seq<Effect>, b: seq<Effect>, ws: WebSocket)
    ensures Writes(a + b, ws) == Writes(a, ws) + Writes(b, ws)
  {
    if a != [] {
      assert (a + b)[1..] == a[1..] + b;
      WritesAppend(a[1..], b, ws);
    } else {
      assert a + b == b;
    }
  }

  /**
   * With a socket attached, the socket receives exactly the messages sent, in the
   * order they were sent; with none attached, every message is dropped.
   */
  lemma {:induction false} WritesOfSendEffects(c: SocketContext, dest: Option<WebSocket>, ms: seq<Message>, ws: WebSocket)
    ensures Writes(SendEffects(c, dest, ms), ws) == if dest == Some(ws) then ms else []
  {
    if ms != [] {
      var head := SendEffect(c, dest, ms[0]);
      var tail := SendEffects(c, dest, ms[1..]);
      assert SendEffects(c, dest, ms) == head + tail;
      WritesAppend(head, tail, ws);
      WritesOfSendEffects(c, dest, ms[1..], ws);
      WritesOfSendEffect(c, dest, ms[0], ws);
      if dest == Some(ws) {
        assert [ms[0]] + ms[1..] == ms;
      } else {
        assert Writes(head, ws) + Writes(tail, ws) == [];
      }
    }
  }

  /** The effects of sending one message. */
  function SendEffect(c: SocketContext, dest: Option<WebSocket>, m: Message): seq<Effect> {
    [Emitted(c, SendMessage(m))] + (if dest.Some? then [Wrote(dest.value, m)] else [])
  }

  lemma WritesOfSendEffect(c: SocketContext, dest: Option<WebSocket>, m: Message, ws: WebSocket)
    ensures Writes(SendEffect(c, dest, m), ws) == if dest == Some(ws) then [m] else []
  {
    var e := SendEffect(c, dest, m);
    if dest.Some? {
      assert e == [Emitted(c, SendMessage(m)), Wrote(dest.value, m)];
      assert e[1..][1..] == [];
      assert Writes(e[1..], ws) == (if dest.value == ws then [m] else []) + Writes(e[1..][1..], ws);
      assert Writes(e, ws) == Writes(e[1..], ws);
    } else {
      assert e == [Emitted(c, SendMessage(m))];
      assert e[1..] == [];
      assert Writes(e, ws) == Writes(e[1..], ws);
    }
  }

  /** The full player updates `resume` sends, one per player in the map's order. */
  function PlayerUpdates(ps: seq<LavalinkPlayer>): (ms: seq<Message>)
    ensures |ms| == |ps| && forall i :: 0 <= i < |ps| ==> ms[i] == PlayerUpdate(ps[i].guildId)
  {
    seq(|ps|, i requires 0 <= i < |ps| => PlayerUpdate(ps[i].guildId))
  }

  /** The voice-gateway listener `getMediaConnection` registers for a player (`WsEventHandler`). */
  datatype WsEventHandler = WsEventHandler(player: LavalinkPlayer) {

    /** The voice connection closed: report it to the client, then send the full player state. */
    method GatewayClosed(code: int, reason: Option<string>, byRemote: bool)
      modifies player.socketContext.trace
      ensures var c := player.socketContext;
        c.trace.events == old(c.trace.events) + SendEffects(c, c.session, [
          ConnectionClosedUpdate(JsText.NatToString(player.guildId), code, reason.GetOr(""), byRemote),
          PlayerUpdate(player.guildId)])
    {
      var c := player.socketContext;
      var event := ConnectionClosedUpdate(JsText.NatToString(player.guildId), code, reason.GetOr(""), byRemote);
      c.SendMessage(event);
      c.SendMessage(PlayerUpdate(player.guildId));
      SendEffectsAppend(c, c.session, [event], [PlayerUpdate(player.guildId)]);
    }

    /** The voice connection is ready: send the full player state. */
    method GatewayReady(target: GuildId, ssrc: int)
      modifies player.socketContext.trace
      ensures var c := player.socketContext;
        c.trace.events == old(c.trace.events) + SendEffects(c, c.session, [PlayerUpdate(player.guildId)])
    {
      player.socketContext.SendMessage(PlayerUpdate(player.guildId));
    }
  }

  /** A voice connection of the koe client, with the listeners registered on it. */
  class MediaConnection {
    const guildId: GuildId
    var listeners: seq<WsEventHandler>

    constructor(guildId: GuildId)
      ensures this.guildId == guildId && listeners == []
    {
      this.guildId := guildId;
      listeners := [];
    }

    method RegisterListener(handler: WsEventHandler)
      modifies this
      ensures listeners == old(listeners) + [handler]
    {
      listeners := listeners + [handler];
    }
  }

  /** The voice client of one session: its open connections by guild. */
  class KoeClient {
    var connections: map<GuildId, MediaConnection>

    constructor()
      ensures connections == map[]
    {
      connections := map[];
    }

    method CreateConnection(guildId: GuildId) returns (connection: MediaConnection)
      modifies this
      ensures fresh(connection) && connection.guildId == guildId && connection.listeners == []
      ensures connections == old(connections)[guildId := connection]
    {
      connection := new MediaConnection(guildId);
      connections := connections[guildId := connection];
    }

    method DestroyConnection(guildId: GuildId)
      modifies this
      ensures connections == old(connections) - {guildId}
    {
      connections := connections - {guildId};
    }
  }

  class SocketContext {
    const sessionId: SessionId
    const userId: Option<string>
    const clientName: Option<string>
    const koe: KoeClient
    const trace: Trace

    var players: JsMap<GuildId, LavalinkPlayer>
    var resumable: bool
    var resumeTimeout: int
    var session: Option<WebSocket>
    var sessionTimeoutFuture: Option<PendingTimeout>
    var resumeEventQueue: seq<Message>

    /** Each guild has at most one player, filed under its own guild id and owned by this session. */
    ghost predicate Valid()
      reads this
    {
      && DistinctKeys(players)
      && forall i :: 0 <= i < |players| ==>
           players[i].1.guildId == players[i].0 && players[i].1.socketContext == this
    }

    /** A new session writing to `ws`, with no players, not resumable, nothing queued. */
    constructor(sessionId: SessionId, userId: Option<string>, clientName: Option<string>, ws: WebSocket, trace: Trace)
      ensures Valid()
      ensures this.sessionId == sessionId && this.userId == userId && this.clientName == clientName
      ensures this.trace == trace && fresh(koe) && koe.connections == map[]
      ensures players == [] && !resumable && resumeTimeout == 0
      ensures session == Some(ws) && sessionTimeoutFuture == None && resumeEventQueue == []
    {
      this.sessionId := sessionId;
      this.userId := userId;
      this.clientName := clientName;
      this.trace := trace;
      koe := new KoeClient();
      players := [];
      resumable := false;
      resumeTimeout := 0;
      session := Some(ws);
      sessionTimeoutFuture := None;
      resumeEventQueue := [];
    }

    /** What `resume` sends, in order: the ready message, the queued messages, one update per player. */
    function ResumeMessages(): seq<Message>
      reads this
    {
      [ResumeReady(sessionId)] + resumeEventQueue + PlayerUpdates(Values(players))
    }

    /**
     * The player of a guild, created on first use: the first call stores a new
     * player and emits `newPlayer`; later calls return that player and emit nothing.
     */
    method GetPlayer(guildId: GuildId) returns (player: LavalinkPlayer)
      requires Valid()
      modifies this`players, trace
      ensures Valid()
      ensures Get(players, guildId) == Some(player) && player.guildId == guildId
      ensures old(Get(players, guildId)).Some? ==>
        && player == old(Get(players, guildId)).value
        && players == old(players)
        && trace.events == old(trace.events)
      ensures old(Get(players, guildId)).None? ==>
        && fresh(player) && player.socketContext == this
        && players == old(players) + [(guildId, player)]
        && trace.events == old(trace.events) + [Emitted(this, NewPlayer(player))]
    {
      var existing := Get(players, guildId);
      if existing.Some? {
        player := existing.value;
        ghost var i :| 0 <= i < |players| && players[i] == (guildId, player);
        return;
      }
      player := new LavalinkPlayer(this, guildId);
      SetNewAppends(players, guildId, player);
      GetSet(players, guildId, player, guildId);
      players := Set(players, guildId, player);
      trace.Record(Emitted(this, NewPlayer(player)));
    }

    /**
     * The player's voice connection: an existing one is returned untouched; otherwise
     * a connection is created and the player's gateway listener registered on it.
     */
    method GetMediaConnection(player: LavalinkPlayer) returns (connection: MediaConnection)
      modifies koe
      ensures player.guildId in old(koe.connections) ==>
        && connection == old(koe.connections)[player.guildId]
        && koe.connections == old(koe.connections)
        && connection.listeners == old(connection.listeners)
      ensures player.guildId !in old(koe.connections) ==>
        && fresh(connection) && connection.guildId == player.guildId
        && koe.connections == old(koe.connections)[player.guildId := connection]
        && connection.listeners == [WsEventHandler(player)]
    {
      var guildId := player.guildId;
      if guildId in koe.connections {
        connection := koe.connections[guildId];
      } else {
        connection := koe.CreateConnection(guildId);
        connection.RegisterListener(WsEventHandler(player));
      }
    }

    /**
     * Destroys a guild's player: a guild without a player is left alone; otherwise its
     * entry is removed, `destroyPlayer` emitted, the player and its voice connection destroyed.
     */
    method DestroyPlayer(guildId: GuildId)
      requires Valid()
      modifies this`players, trace, koe
      ensures Valid()
      ensures !Has(players, guildId)
      ensures forall g :: g != guildId ==> Get(players, g) == old(Get(players, g))
      ensures old(Get(players, guildId)).None? ==>
        && players == old(players)
        && trace.events == old(trace.events)
        && koe.connections == old(koe.connections)
      ensures old(Get(players, guildId)).Some? ==>
        var player := old(Get(players, guildId)).value;
        && players == Delete(old(players), guildId)
        && trace.events == old(trace.events) + [
             Emitted(this, ContextEvent.DestroyPlayer(player)), PlayerDestroyed(player), ConnectionDestroyed(this, guildId)]
        && koe.connections == old(koe.connections) - {guildId}
    {
      forall g | g != guildId ensures Get(Delete(players, guildId), g) == Get(players, g) {
        GetDelete(players, guildId, g);
      }
      GetDelete(players, guildId, guildId);
      var found := Get(players, guildId);
      if found.None? {
        return;
      }
      var player := found.value;
      DeleteValid(guildId);
      players := Delete(players, guildId);
      trace.Record(Emitted(this, ContextEvent.DestroyPlayer(player)));
      trace.Record(PlayerDestroyed(player));
      koe.DestroyConnection(guildId);
      trace.Record(ConnectionDestroyed(this, guildId));
    }

    /** Deleting a guild keeps every remaining player filed under its own guild. */
    lemma DeleteValid(guildId: GuildId)
      requires Valid()
      ensures var m := Delete(players, guildId);
        && DistinctKeys(m)
        && forall i :: 0 <= i < |m| ==> m[i].1.guildId == m[i].0 && m[i].1.socketContext == this
    {
      if Has(players, guildId) {
        DeleteDistinct(players, guildId);
        var k := IndexOf(players, guildId);
        var m := Delete(players, guildId);
        forall i | 0 <= i < |m| ensures m[i] == players[if i < k then i else i + 1] {
          if i < k { assert m[i] == players[..k][i]; } else { assert m[i] == players[k + 1..][i - k]; }
        }
      } else {
        DeleteIsFilter(players, guildId);
      }
    }

    /** The client went away while resumable: keep the session and start the resume timer. */
    method Pause()
      modifies this`resumable, this`sessionTimeoutFuture, trace
      ensures resumable
      ensures sessionTimeoutFuture == Some(PendingTimeout(resumeTimeout * 1000, this))
      ensures trace.events == old(trace.events) + [Emitted(this, ContextEvent.Pause)]
    {
      resumable := true;
      sessionTimeoutFuture := Some(PendingTimeout(resumeTimeout * 1000, this));
      trace.Record(Emitted(this, ContextEvent.Pause));
    }

    /**
     * A client came back with this session's id on `ws`: attach it, send the ready
     * message, replay the queued messages first in first out, then one full update per player.
     */
    method Resume(ws: WebSocket)
      modifies this`resumable, this`session, this`resumeEventQueue, trace
      ensures !resumable && session == Some(ws) && resumeEventQueue == []
      ensures trace.events == old(trace.events) + SendEffects(this, Some(ws), old(ResumeMessages()))
    {
      ghost var before := trace.events;
      ghost var queue := resumeEventQueue;
      resumable := false;
      session := Some(ws);
      SendMessage(ResumeReady(sessionId));
      assert queue[..0] == [] && [ResumeReady(sessionId)] + [] == [ResumeReady(sessionId)];
      while |resumeEventQueue| > 0
        invariant !resumable && session == Some(ws) && players == old(players)
        invariant |resumeEventQueue| <= |queue|
        invariant resumeEventQueue == queue[|queue| - |resumeEventQueue|..]
        invariant trace.events == before
          + SendEffects(this, Some(ws), [ResumeReady(sessionId)] + queue[..|queue| - |resumeEventQueue|])
        decreases |resumeEventQueue|
      {
        var message := resumeEventQueue[0];
        ghost var done := queue[..|queue| - |resumeEventQueue|];
        assert message == queue[|queue| - |resumeEventQueue|];
        resumeEventQueue := resumeEventQueue[1..];
        SendMessage(message);
        SendEffectsAppend(this, Some(ws), [ResumeReady(sessionId)] + done, [message]);
        assert queue[..|queue| - |resumeEventQueue|] == done + [message];
        assert [ResumeReady(sessionId)] + done + [message] == [ResumeReady(sessionId)] + (done + [message]);
      }
      assert queue[..|queue|] == queue;
      var ps := Values(players);
      assert PlayerUpdates(ps[..0]) == [];
      assert [ResumeReady(sessionId)] + queue + PlayerUpdates(ps[..0]) == [ResumeReady(sessionId)] + queue;
      var i := 0;
      while i < |ps|
        invariant 0 <= i <= |ps|
        invariant !resumable && session == Some(ws) && resumeEventQueue == []
        invariant trace.events == before
          + SendEffects(this, Some(ws), [ResumeReady(sessionId)] + queue + PlayerUpdates(ps[..i]))
      {
        SendMessage(PlayerUpdate(ps[i].guildId));
        SendEffectsAppend(this, Some(ws), [ResumeReady(sessionId)] + queue + PlayerUpdates(ps[..i]), [PlayerUpdate(ps[i].guildId)]);
        assert PlayerUpdates(ps[..i + 1]) == PlayerUpdates(ps[..i]) + [PlayerUpdate(ps[i].guildId)];
        assert [ResumeReady(sessionId)] + queue + PlayerUpdates(ps[..i]) + [PlayerUpdate(ps[i].guildId)]
          == [ResumeReady(sessionId)] + queue + PlayerUpdates(ps[..i + 1]);
        i := i + 1;
      }
      assert ps[..|ps|] == ps;
    }

    /**
     * Emits `sendMessage`, then writes the serialised message to the attached socket;
     * with no socket the message is dropped. This is the evidently intended version,
     * in which the serialised message does not shadow the serialiser.
     */
    method SendMessage(message: Message)
      modifies trace
      ensures trace.events == old(trace.events) + SendEffects(this, session, [message])
    {
      trace.Record(Emitted(this, ContextEvent.SendMessage(message)));
      if session.Some? {
        trace.Record(Wrote(session.value, message));
      }
    }

    /**
     * `sendMessage` as written: the serialised message is stored in a `const json`
     * whose own initialiser reads `json`, a `ReferenceError` raised right after the
     * event is emitted; nothing reaches the socket.
     */
    function SendMessageAsWritten(message: Message): (seq<Effect>, Option<string>) {
      ([Emitted(this, ContextEvent.SendMessage(message))], Some("Cannot access 'json' before initialization"))
    }

    /** As written, a session with a socket attached never writes the message to it. */
    lemma SendMessageAsWrittenDropsMessage(message: Message, ws: WebSocket)
      requires session == Some(ws)
      ensures Writes(SendMessageAsWritten(message).0, ws) == []
      ensures Writes(SendEffects(this, session, [message]), ws) == [message]
    {
      WritesOfSendEffects(this, session, [message], ws);
    }

    /** A koe voice connection of this session closed. */
    method OnKoeConnectionClosed(target: GuildId)
      modifies trace
      ensures trace.events == old(trace.events) + [Emitted(this, GatewayClosed(target, 1000, "Koe connection closed"))]
    {
      trace.Record(Emitted(this, GatewayClosed(target, 1000, "Koe connection closed")));
    }

    /** `shutdown()`, whose body is outside this model: the call is recorded. */
    method Shutdown()
      modifies trace
      ensures trace.events == old(trace.events) + [ContextShutdown(this)]
    {
      trace.Record(ContextShutdown(this));
    }

    /** `closeWebSocket(code)`, whose body is outside this model: the attempt and whether it threw are recorded. */
    method CloseWebSocket(code: int, throws: bool)
      modifies trace
      ensures trace.events == old(trace.events) + [CloseAttempt(this, code, throws)]
    {
      trace.Record(CloseAttempt(this, code, throws));
    }

    /** `stopResumeTimeout()`: cancels the pending resume timer and answers whether one was pending. */
    method StopResumeTimeout() returns (stopped: bool)
      modifies this`sessionTimeoutFuture
      ensures stopped == old(sessionTimeoutFuture).Some? && sessionTimeoutFuture == None
    {
      stopped := sessionTimeoutFuture.Some?;
      sessionTimeoutFuture := None;
    }
  }

  /** Asking twice for the same guild's player gives the same player and emits once. */
  method GetPlayerTwice(c: SocketContext, guildId: GuildId) returns (first: LavalinkPlayer, second: LavalinkPlayer)
    requires c.Valid() && !Has(c.players, guildId)
    modifies c`players, c.trace
    ensures first == second && fresh(first)
    ensures c.trace.events == old(c.trace.events) + [Emitted(c, NewPlayer(first))]
  {
    first := c.GetPlayer(guildId);
    second := c.GetPlayer(guildId);
  }
}
