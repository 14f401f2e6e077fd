/**
 * The node's shutdown hook (io/ShutdownHandler.js): every live session is asked to
 * close its websocket with status 1001 (Going Away, section 7.4.1 of RFC 6455);
 * a session whose close throws is skipped and the others are still closed.
 */
module Shutdown {
  import opened Session
  import opened Server

  /** The Going Away close status. */
  const GoingAway: int := 1001

  /** One close attempt per session, in order, each recording whether it threw. */
  function CloseAttempts(cs: seq<SocketContext>, throws: SocketContext -> bool): (es: seq<Effect>)
    ensures |es| == |cs|
    ensures forall i :: 0 <= i < |cs| ==> es[i] == CloseAttempt(cs[i], GoingAway, throws(cs[i]))
  {
    seq(|cs|, i requires 0 <= i < |cs| => CloseAttempt(cs[i], GoingAway, throws(cs[i])))
  }

  class ShutdownHandler {
    const server: SocketServer

    constructor(server: SocketServer)
      ensures this.server == server
    {
      this.server := server;
    }

    /**
     * `run`: attempts the close on every session of `contexts`, exactly once each and
     * in order; what a failing close throws is swallowed, so `run` itself never throws.
     */
    method Run(throws: SocketContext -> bool)
      requires server.Valid()
      modifies server.trace
      ensures server.trace.events == old(server.trace.events) + CloseAttempts(server.Contexts(), throws)
    {
      var cs := server.Contexts();
      var i := 0;
      while i < |cs|
        invariant 0 <= i <= |cs|
        invariant server.trace.events == old(server.trace.events) + CloseAttempts(cs[..i], throws)
      {
        assert cs[i].trace == server.trace by {
          assert cs[i] == server.sessions[i].1;
        }
        cs[i].CloseWebSocket(GoingAway, throws(cs[i]));
        assert CloseAttempts(cs[..i + 1], throws) == CloseAttempts(cs[..i], throws) + [CloseAttempt(cs[i], GoingAway, throws(cs[i]))];
        i := i + 1;
      }
      assert cs[..i] == cs;
    }
  }
}
