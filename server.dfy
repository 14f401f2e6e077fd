/**
 * The session registry of the audio node (io/SocketServer.js): the live sessions
 * and the paused, resumable ones, both keyed by session id in insertion order.
 * It routes an incoming websocket to a resumed or a new session, parks or shuts
 * down a session whose socket closed, expires paused sessions and shuts
 * everything down.
 */
module Server {
  import opened Wrappers
  import opened JsMaps
  import opened Protocol
  import opened JsText
  import opened Session

  // ---------------------------------------------------------------------------
  // Session ids

  /** The 36 characters a session id is drawn from. */
  const CharPool: string := "abcdefghijklmnopqrstuvwxyz0123456789"

  /** A session id is 16 characters long. */
  const IdLength: nat := 16

  /** A value `Math.random()` can return. */
  predicate IsUnitDraw(r: real) {
    0.0 <= r < 1.0
  }

  predicate AllUnit(draws: seq<real>) {
    forall i :: 0 <= i < |draws| ==> IsUnitDraw(draws[i])
  }

  predicate IsSessionId(s: string) {
    |s| == IdLength && forall i :: 0 <= i < |s| ==> s[i] in CharPool
  }

  /** `Math.floor(r * charPool.length)`: always an index into the pool. */
  function PoolIndex(r: real): (i: nat)
    requires IsUnitDraw(r)
    ensures i < |CharPool|
  {
    (r * 36.0).Floor
  }

  /** `charPool[Math.floor(r * charPool.length)]`. */
  function PoolChar(r: real): (c: char)
    requires IsUnitDraw(r)
    ensures c in CharPool
  {
    CharPool[PoolIndex(r)]
  }

  /** The number of whole candidate ids the draws are enough for. */
  function CandidateCount(draws: seq<real>): nat {
    |draws| / IdLength
  }

  /** The `j`-th candidate id: 16 characters, one pool character per draw. */
  function Candidate(draws: seq<real>, j: nat): (id: SessionId)
    requires AllUnit(draws) && j < CandidateCount(draws)
    ensures IsSessionId(id)
  {
    var id := seq(IdLength, i requires 0 <= i < IdLength => PoolChar(draws[IdLength * j + i]));
    assert forall i :: 0 <= i < IdLength ==> id[i] == PoolChar(draws[IdLength * j + i]);
    id
  }

  /**
   * What the do-while of `generateUniqueSessionId` returns from candidate `j` on:
   * the first candidate that is not a key of `sessions`, or nothing once the draws run out.
   */
  function FirstFree(sessions: JsMap<SessionId, SocketContext>, draws: seq<real>, j: nat): (r: Option<SessionId>)
    requires AllUnit(draws) && j <= CandidateCount(draws)
    decreases CandidateCount(draws) - j
    ensures r.Some? ==> IsSessionId(r.value) && !Has(sessions, r.value)
    ensures r.None? <==> forall i :: j <= i < CandidateCount(draws) ==> Has(sessions, Candidate(draws, i))
  {
    if j == CandidateCount(draws) then None
    else if !Has(sessions, Candidate(draws, j)) then Some(Candidate(draws, j))
    else FirstFree(sessions, draws, j + 1)
  }

  /** Where the do-while stops: the first free candidate, every earlier one being taken. */
  function FirstFreeIndex(sessions: JsMap<SessionId, SocketContext>, draws: seq<real>, j: nat): (k: nat)
    requires AllUnit(draws) && j <= CandidateCount(draws)
    requires FirstFree(sessions, draws, j).Some?
    decreases CandidateCount(draws) - j
    ensures j <= k < CandidateCount(draws)
    ensures FirstFree(sessions, draws, j) == Some(Candidate(draws, k))
    ensures forall i :: j <= i < k ==> Has(sessions, Candidate(draws, i))
  {
    if Has(sessions, Candidate(draws, j)) then FirstFreeIndex(sessions, draws, j + 1) else j
  }

  // ---------------------------------------------------------------------------
  // The registry

  /** The headers of the upgrade request the server reads. */
  datatype Headers = Headers(userId: Option<string>, sessionId: Option<string>, clientName: Option<string>)

  /** One `shutdown` effect per context, in order. */
  function ShutdownEffects(cs: seq<SocketContext>): (es: seq<Effect>)
    ensures |es| == |cs| && forall i :: 0 <= i < |cs| ==> es[i] == ContextShutdown(cs[i])
  {
    seq(|cs|, i requires 0 <= i < |cs| => ContextShutdown(cs[i]))
  }

  class SocketServer {
    /** The effect log shared with every session of this server. */
    const trace: Trace
    var sessions: JsMap<SessionId, SocketContext>
    var resumableSessions: JsMap<SessionId, SocketContext>

    /** Both maps file each session under its own id, and every session logs to this server's trace. */
    ghost predicate Valid()
      reads this, Values(sessions), Values(resumableSessions)
    {
      && DistinctKeys(sessions) && DistinctKeys(resumableSessions)
      && (forall i :: 0 <= i < |sessions| ==>
            sessions[i].1.sessionId == sessions[i].0 && sessions[i].1.trace == trace)
      && (forall i :: 0 <= i < |resumableSessions| ==>
            resumableSessions[i].1.sessionId == resumableSessions[i].0 && resumableSessions[i].1.trace == trace)
    }

    constructor(trace: Trace)
      ensures Valid() && this.trace == trace && sessions == [] && resumableSessions == []
    {
      this.trace := trace;
      sessions := [];
      resumableSessions := [];
    }

    /**
     * `contexts`: the live sessions in insertion order. The source passes the
     * uncalled `values` method to `Array.from`, which yields an empty array; this
     * is the evidently intended `Array.from(this.sessions.values())`.
     */
    function Contexts(): (cs: seq<SocketContext>)
      reads this
      ensures |cs| == |sessions| && forall i :: 0 <= i < |cs| ==> cs[i] == sessions[i].1
    {
      Values(sessions)
    }

    /** `contexts` as written: `Array.from` of a function object is an empty array. */
    function ContextsAsWritten(): seq<SocketContext> {
      []
    }

    /** As written, `contexts` loses every live session. */
    lemma ContextsAsWrittenLosesSessions()
      requires sessions != []
      ensures ContextsAsWritten() != Contexts() && |Contexts()| == |sessions|
    {
    }

    /** Draws candidate ids until one is not a live session id. */
    method GenerateUniqueSessionId(draws: seq<real>) returns (id: Option<SessionId>)
      requires AllUnit(draws)
      ensures id == FirstFree(sessions, draws, 0)
      ensures id.Some? ==> IsSessionId(id.value) && !Has(sessions, id.value)
    {
      var j := 0;
      while j < CandidateCount(draws)
        invariant j <= CandidateCount(draws)
        invariant FirstFree(sessions, draws, 0) == FirstFree(sessions, draws, j)
        decreases CandidateCount(draws) - j
      {
        var candidate := Candidate(draws, j);
        if !Has(sessions, candidate) {
          return Some(candidate);
        }
        j := j + 1;
      }
      return None;
    }

    /** The paused session a handshake asks to resume: a truthy Session-Id naming a resumable session. */
    function ResumeTarget(h: Headers): (r: Option<SocketContext>)
      reads this
      ensures r.Some? ==> Truthy(h.sessionId) && Get(resumableSessions, h.sessionId.value) == r
    {
      if Truthy(h.sessionId) then Get(resumableSessions, h.sessionId.value) else None
    }

    /** The paused session a handshake resumes, as a frame: empty when it resumes none. */
    function ResumeFrame(h: Headers): set<SocketContext>
      reads this
    {
      if ResumeTarget(h).Some? then {ResumeTarget(h).value} else {}
    }

    /**
     * A websocket connected. A resumable session named by Session-Id is re-registered
     * under its id, resumed on the socket and told the socket opened (resumed); no id
     * is drawn. Otherwise a fresh id is drawn and a new session registered under it,
     * which sends `ready` and then reports the socket open (not resumed). This is the
     * evidently intended version, in which the drawn id may replace the header's.
     */
    method OnConnectionEstablished(ws: WebSocket, h: Headers, draws: seq<real>) returns (ghost started: Option<SocketContext>)
      requires Valid() && AllUnit(draws)
      modifies this`sessions, ws`sessionId, trace
      modifies ResumeFrame(h)`resumable, ResumeFrame(h)`session, ResumeFrame(h)`resumeEventQueue
      ensures Valid()
      ensures resumableSessions == old(resumableSessions)
      ensures old(ResumeTarget(h)).Some? ==>
        var r := old(ResumeTarget(h)).value;
        && started == Some(r)
        && sessions == Set(old(sessions), r.sessionId, r)
        && r.session == Some(ws) && !r.resumable && r.resumeEventQueue == []
        && r.players == old(r.players) && r.sessionTimeoutFuture == old(r.sessionTimeoutFuture)
        && trace.events == old(trace.events)
             + SendEffects(r, Some(ws), old(r.ResumeMessages())) + [Emitted(r, WebSocketOpen(true))]
        && ws.sessionId == old(ws.sessionId)
      ensures old(ResumeTarget(h)).None? && old(FirstFree(sessions, draws, 0)).None? ==>
        && started == None
        && sessions == old(sessions) && trace.events == old(trace.events) && ws.sessionId == old(ws.sessionId)
      ensures old(ResumeTarget(h)).None? && old(FirstFree(sessions, draws, 0)).Some? ==>
        var id := old(FirstFree(sessions, draws, 0)).value;
        && started.Some? && fresh(started.value)
        && var c := started.value;
        && c.sessionId == id && c.userId == h.userId && c.clientName == h.clientName
        && c.session == Some(ws) && c.players == [] && !c.resumable && c.resumeEventQueue == []
        && ws.sessionId == Some(id)
        && sessions == old(sessions) + [(id, c)]
        && trace.events == old(trace.events)
             + SendEffects(c, Some(ws), [Ready(false, id)]) + [Emitted(c, WebSocketOpen(false))]
    {
      if Truthy(h.sessionId) {
        var resumable := Get(resumableSessions, h.sessionId.value);
        if resumable.Some? {
          var r := resumable.value;
          ghost var k :| 0 <= k < |resumableSessions| && resumableSessions[k] == (h.sessionId.value, r);
          SetValid(r);
          sessions := Set(sessions, r.sessionId, r);
          r.Resume(ws);
          trace.Record(Emitted(r, WebSocketOpen(true)));
          return Some(r);
        }
      }
      var sessionId := GenerateUniqueSessionId(draws);
      if sessionId.None? {
        return None;
      }
      var id := sessionId.value;
      ws.sessionId := Some(id);
      var c := new SocketContext(id, h.userId, h.clientName, ws, trace);
      SetNewAppends(sessions, id, c);
      SetValid(c);
      sessions := Set(sessions, id, c);
      c.SendMessage(Ready(false, id));
      trace.Record(Emitted(c, WebSocketOpen(false)));
      return Some(c);
    }

    /**
     * `onConnectionEstablished` as written, up to its first effect: the Session-Id
     * header is read into a `const`, so a connection that does not resume reaches
     * `sessionId = this.generateUniqueSessionId()` and throws a `TypeError`.
     */
    function EstablishAsWritten(h: Headers): (r: Result<SocketContext, string>)
      reads this
    {
      match ResumeTarget(h)
      case Some(c) => Ok(c)
      case None => Err("Assignment to constant variable.")
    }

    /** As written, every connection that does not resume a paused session fails. */
    lemma NewConnectionThrowsAsWritten(h: Headers)
      requires ResumeTarget(h).None?
      ensures EstablishAsWritten(h).Err?
    {
    }

    /** Filing a session under its own id keeps the registry valid. */
    lemma SetValid(c: SocketContext)
      requires Valid() && c.trace == trace
      ensures var m := Set(sessions, c.sessionId, c);
        && DistinctKeys(m)
        && forall i :: 0 <= i < |m| ==> m[i].1.sessionId == m[i].0 && m[i].1.trace == trace
    {
      SetDistinct(sessions, c.sessionId, c);
      SetEntries(sessions, c.sessionId, c);
    }

    /** The live session a closing socket belongs to: the one filed under the socket's id. */
    function Owner(ws: WebSocket): Option<SocketContext>
      reads this, ws
    {
      if ws.sessionId.Some? then Get(sessions, ws.sessionId.value) else None
    }

    /** The live session a closing socket belongs to, as a frame: empty when it has none. */
    function OwnerFrame(ws: WebSocket): set<SocketContext>
      reads this, ws
    {
      if Owner(ws).Some? then {Owner(ws).value} else {}
    }

    /**
     * A websocket closed. A socket of no live session changes nothing. A resumable
     * session first shuts down any paused session filed under the same id, then takes
     * its place in `resumableSessions` and pauses. Any other session is shut down.
     */
    method OnConnectionClosed(ws: WebSocket)
      requires Valid()
      modifies this`resumableSessions, trace, OwnerFrame(ws)`resumable, OwnerFrame(ws)`sessionTimeoutFuture
      ensures Valid()
      ensures sessions == old(sessions)
      ensures old(Owner(ws)).None? ==>
        resumableSessions == old(resumableSessions) && trace.events == old(trace.events)
      ensures old(Owner(ws)).Some? && !old(Owner(ws).value.resumable) ==>
        var c := old(Owner(ws)).value;
        && resumableSessions == old(resumableSessions)
        && c.resumable == old(c.resumable)
        && c.sessionTimeoutFuture == old(c.sessionTimeoutFuture)
        && trace.events == old(trace.events) + [ContextShutdown(c)]
      ensures old(Owner(ws)).Some? && old(Owner(ws).value.resumable) ==>
        var c := old(Owner(ws)).value;
        var removed := old(Get(resumableSessions, c.sessionId));
        && resumableSessions == Set(old(resumableSessions), c.sessionId, c)
        && Get(resumableSessions, c.sessionId) == Some(c)
        && c.resumable && c.sessionTimeoutFuture == Some(PendingTimeout(c.resumeTimeout * 1000, c))
        && trace.events == old(trace.events)
             + (if removed.Some? then [ContextShutdown(removed.value)] else [])
             + [Emitted(c, ContextEvent.Pause)]
    {
      var owner := Owner(ws);
      if owner.None? {
        return;
      }
      var c := owner.value;
      if ws.sessionId.Some? {
        ghost var k :| 0 <= k < |sessions| && sessions[k] == (ws.sessionId.value, c);
      }
      if c.resumable {
        Park(c);
        return;
      }
      c.Shutdown();
    }

    /**
     * The resumable branch of `onConnectionClosed`: a paused session already filed
     * under the id is shut down, then `c` takes its place and pauses.
     */
    method Park(c: SocketContext)
      requires Valid() && c.trace == trace
      modifies this`resumableSessions, trace, c`resumable, c`sessionTimeoutFuture
      ensures Valid()
      ensures resumableSessions == Set(old(resumableSessions), c.sessionId, c)
      ensures Get(resumableSessions, c.sessionId) == Some(c)
      ensures c.resumable && c.sessionTimeoutFuture == Some(PendingTimeout(c.resumeTimeout * 1000, c))
      ensures var removed := old(Get(resumableSessions, c.sessionId));
        trace.events == old(trace.events)
          + (if removed.Some? then [ContextShutdown(removed.value)] else [])
          + [Emitted(c, ContextEvent.Pause)]
    {
      var removed := Get(resumableSessions, c.sessionId);
      if removed.Some? {
        ghost var k :| 0 <= k < |resumableSessions| && resumableSessions[k] == (c.sessionId, removed.value);
        removed.value.Shutdown();
      }
      SetResumableValid(c);
      GetSet(resumableSessions, c.sessionId, c, c.sessionId);
      resumableSessions := Set(resumableSessions, c.sessionId, c);
      c.Pause();
    }

    /** Filing a session among the resumable ones under its own id keeps the registry valid. */
    lemma SetResumableValid(c: SocketContext)
      requires Valid() && c.trace == trace
      ensures var m := Set(resumableSessions, c.sessionId, c);
        && DistinctKeys(m)
        && forall i :: 0 <= i < |m| ==> m[i].1.sessionId == m[i].0 && m[i].1.trace == trace
    {
      SetDistinct(resumableSessions, c.sessionId, c);
      SetEntries(resumableSessions, c.sessionId, c);
    }

    /** A paused session's resume timer fired: forget it as resumable, then shut it down. */
    method OnSessionResumeTimeout(c: SocketContext)
      requires Valid() && c.trace == trace
      modifies this`resumableSessions, trace
      ensures Valid()
      ensures resumableSessions == Delete(old(resumableSessions), c.sessionId)
      ensures !Has(resumableSessions, c.sessionId)
      ensures forall id :: id != c.sessionId ==> Get(resumableSessions, id) == old(Get(resumableSessions, id))
      ensures trace.events == old(trace.events) + [ContextShutdown(c)]
    {
      forall id | id != c.sessionId
        ensures Get(Delete(resumableSessions, c.sessionId), id) == Get(resumableSessions, id)
      {
        GetDelete(resumableSessions, c.sessionId, id);
      }
      GetDelete(resumableSessions, c.sessionId, c.sessionId);
      DeleteResumableValid(c.sessionId);
      resumableSessions := Delete(resumableSessions, c.sessionId);
      c.Shutdown();
    }

    /** Removing an id from the resumable sessions keeps the registry valid. */
    lemma DeleteResumableValid(id: SessionId)
      requires Valid()
      ensures var m := Delete(resumableSessions, id);
        && DistinctKeys(m)
        && forall i :: 0 <= i < |m| ==> m[i].1.sessionId == m[i].0 && m[i].1.trace == trace
    {
      if Has(resumableSessions, id) {
        DeleteDistinct(resumableSessions, id);
        var k := IndexOf(resumableSessions, id);
        var m := Delete(resumableSessions, id);
        forall i | 0 <= i < |m| ensures m[i] == resumableSessions[if i < k then i else i + 1] {
          if i < k {
            assert m[i] == resumableSessions[..k][i];
          } else {
            assert m[i] == resumableSessions[k + 1..][i - k];
          }
        }
      } else {
        DeleteIsFilter(resumableSessions, id);
      }
    }

    /**
     * `canResume(id)`: the id names a paused session whose resume timer was still
     * pending. Asking cancels that timer; nothing else changes.
     */
    method CanResume(id: SessionId) returns (ok: bool)
      modifies (if Has(resumableSessions, id) then {Get(resumableSessions, id).value} else {})`sessionTimeoutFuture
      ensures ok == (Has(resumableSessions, id) && old(Get(resumableSessions, id).value.sessionTimeoutFuture).Some?)
      ensures Has(resumableSessions, id) ==> Get(resumableSessions, id).value.sessionTimeoutFuture == None
    {
      var c := Get(resumableSessions, id);
      if c.None? {
        return false;
      }
      ok := c.value.StopResumeTimeout();
    }

    /** Shuts down every live session, then every resumable one, each in insertion order. */
    method Shutdown()
      requires Valid()
      modifies trace
      ensures trace.events == old(trace.events)
        + ShutdownEffects(Values(sessions)) + ShutdownEffects(Values(resumableSessions))
    {
      var live := Values(sessions);
      var i := 0;
      while i < |live|
        invariant 0 <= i <= |live|
        invariant trace.events == old(trace.events) + ShutdownEffects(live[..i])
        invariant forall k :: 0 <= k < |live| ==> live[k].trace == trace
      {
        live[i].Shutdown();
        assert ShutdownEffects(live[..i + 1]) == ShutdownEffects(live[..i]) + [ContextShutdown(live[i])];
        i := i + 1;
      }
      assert live[..i] == live;
      ghost var mid := trace.events;
      var paused := Values(resumableSessions);
      var j := 0;
      while j < |paused|
        invariant 0 <= j <= |paused|
        invariant trace.events == mid + ShutdownEffects(paused[..j])
        invariant forall k :: 0 <= k < |paused| ==> paused[k].trace == trace
      {
        paused[j].Shutdown();
        assert ShutdownEffects(paused[..j + 1]) == ShutdownEffects(paused[..j]) + [ContextShutdown(paused[j])];
        j := j + 1;
      }
      assert paused[..j] == paused;
    }
  }

  /** Every entry of `Set(m, k, v)` is `(k, v)` or an entry of `m`. */
  lemma {:induction false} SetEntries(m: JsMap<SessionId, SocketContext>, k: SessionId, v: SocketContext)
    ensures forall i :: 0 <= i < |Set(m, k, v)| ==>
      Set(m, k, v)[i] == (k, v) || exists j :: 0 <= j < |m| && m[j] == Set(m, k, v)[i]
  {
    if m != [] && m[0].0 != k {
      SetEntries(m[1..], k, v);
      var r := Set(m, k, v);
      forall i | 0 <= i < |r| ensures r[i] == (k, v) || exists j :: 0 <= j < |m| && m[j] == r[i] {
        if i > 0 && r[i] != (k, v) {
          var j :| 0 <= j < |m[1..]| && m[1..][j] == Set(m[1..], k, v)[i - 1];
          assert m[j + 1] == r[i];
        } else if i == 0 {
          assert m[0] == r[0];
        }
      }
    } else if m != [] {
      var r := Set(m, k, v);
      forall i | 0 <= i < |r| ensures r[i] == (k, v) || exists j :: 0 <= j < |m| && m[j] == r[i] {
        if i > 0 {
          assert m[i] == r[i];
        }
      }
    }
  }

  /** A session whose resume timer expired can no longer be resumed. */
  method ExpireThenAsk(s: SocketServer, c: SocketContext) returns (ok: bool)
    requires s.Valid() && c.trace == s.trace
    modifies s`resumableSessions, s.trace
    ensures !ok
    ensures s.trace.events == old(s.trace.events) + [ContextShutdown(c)]
  {
    s.OnSessionResumeTimeout(c);
    ok := s.CanResume(c.sessionId);
  }
}
