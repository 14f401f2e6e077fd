/**
 * The listener dispatcher of a session (io/EventEmitter.js): every registered
 * listener is called in registration order on a copy of the list, a listener
 * that throws does not stop the others, and the outcome resolves when nobody
 * threw and otherwise rejects with every thrown error in the order thrown.
 *
 * What a listener does is outside this model; whether it throws on a given call
 * is a parameter, `outcome`.
 */
module Events {
  import opened Wrappers
  import opened Protocol
  import opened Session

  /** A registered event handler. */
  datatype Listener = Listener(id: nat)

  /** An error a listener threw. */
  datatype Thrown = Thrown(description: string)

  /** The call each `on*` method makes on a listener: the session first, then its own argument. */
  datatype ListenerCall =
    | WebSocketOpenCall(context: SocketContext, resumed: bool)
    | ContextPausedCall(context: SocketContext)
    | ContextDestroyedCall(context: SocketContext)
    | MessageOutCall(context: SocketContext, message: Message)
    | NewPlayerCall(context: SocketContext, player: LavalinkPlayer)
    | DestroyPlayerCall(context: SocketContext, player: LavalinkPlayer)

  /** How the promise of `_iterate` settles. */
  datatype Settled = Resolved | Rejected(errors: seq<Thrown>)

  /** What a listener throws on a call, if anything. */
  type Outcome = (Listener, ListenerCall) -> Option<Thrown>

  /** Every listener receives the call once, in registration order. */
  function Invocations(ls: seq<Listener>, call: ListenerCall): (inv: seq<(Listener, ListenerCall)>)
    ensures |inv| == |ls| && forall i :: 0 <= i < |ls| ==> inv[i] == (ls[i], call)
  {
    seq(|ls|, i requires 0 <= i < |ls| => (ls[i], call))
  }

  /** The errors thrown by the listeners, in the order they were called. */
  function Errors(ls: seq<Listener>, call: ListenerCall, outcome: Outcome): seq<Thrown> {
    if ls == [] then []
    else (if outcome(ls[0], call).Some? then [outcome(ls[0], call).value] else []) + Errors(ls[1..], call, outcome)
  }

  /** How dispatching `call` to `ls` settles. */
  function Settle(ls: seq<Listener>, call: ListenerCall, outcome: Outcome): Settled {
    var errors := Errors(ls, call, outcome);
    if errors == [] then Resolved else Rejected(errors)
  }

  /** The errors of consecutive listener lists follow each other. */
  lemma {:induction false} ErrorsAppend(a: seq<Listener>, b: seq<Listener>, call: ListenerCall, outcome: Outcome)
    ensures Errors(a + b, call, outcome) == Errors(a, call, outcome) + Errors(b, call, outcome)
  {
    if a == [] {
      assert a + b == b;
    } else {
      var ab := a + b;
      assert ab[0] == a[0];
      assert ab[1..] == a[1..] + b;
      var head := if outcome(a[0], call).Some? then [outcome(a[0], call).value] else [];
      assert Errors(ab, call, outcome) == head + Errors(a[1..] + b, call, outcome);
      assert Errors(a, call, outcome) == head + Errors(a[1..], call, outcome);
      ErrorsAppend(a[1..], b, call, outcome);
    }
  }

  /** There are no errors exactly when no listener threw. */
  lemma {:induction false} ErrorsEmpty(ls: seq<Listener>, call: ListenerCall, outcome: Outcome)
    ensures Errors(ls, call, outcome) == [] <==> forall i :: 0 <= i < |ls| ==> outcome(ls[i], call).None?
  {
    if ls != [] {
      ErrorsEmpty(ls[1..], call, outcome);
      assert forall i :: 1 <= i < |ls| ==> ls[i] == ls[1..][i - 1];
    }
  }

  /** The promise resolves exactly when no listener threw. */
  lemma SettleResolved(ls: seq<Listener>, call: ListenerCall, outcome: Outcome)
    ensures Settle(ls, call, outcome) == Resolved <==> forall i :: 0 <= i < |ls| ==> outcome(ls[i], call).None?
  {
    ErrorsEmpty(ls, call, outcome);
  }

  /**
   * Three listeners of which the first and the third throw: all three run, and
   * the promise rejects with the first error followed by the third.
   */
  lemma ThreeListeners(call: ListenerCall, outcome: Outcome, a: Listener, b: Listener, c: Listener, e1: Thrown, e3: Thrown)
    requires outcome(a, call) == Some(e1) && outcome(b, call) == None && outcome(c, call) == Some(e3)
    ensures Invocations([a, b, c], call) == [(a, call), (b, call), (c, call)]
    ensures Settle([a, b, c], call, outcome) == Rejected([e1, e3])
  {
    ErrorsAppend([a], [b, c], call, outcome);
    ErrorsAppend([b], [c], call, outcome);
    assert [a, b, c] == [a] + [b, c];
    assert [b, c] == [b] + [c];
  }

  /** One step of a walk over `ls`: the next prefix is the current one and the next listener. */
  lemma PrefixStep(ls: seq<Listener>, n: nat)
    requires n < |ls|
    ensures ls[..n + 1] == ls[..n] + [ls[n]] && ls[n + 1..] == ls[n..][1..] && ls[n] == ls[n..][0]
  {
  }

  class EventEmitter {
    const context: SocketContext
    var listeners: seq<Listener>

    constructor(context: SocketContext, listeners: seq<Listener>)
      ensures this.context == context && this.listeners == listeners
    {
      this.context := context;
      this.listeners := listeners;
    }

    /**
     * `_iterate`: calls every listener of a copy of the list, collecting what it
     * throws, and settles once the copy is empty.
     */
    method Iterate(call: ListenerCall, outcome: Outcome) returns (invoked: seq<(Listener, ListenerCall)>, settled: Settled)
      ensures invoked == Invocations(listeners, call)
      ensures settled == Settle(listeners, call, outcome)
    {
      var errors: seq<Thrown> := [];
      var pending := listeners;
      invoked := [];
      ghost var n := 0;
      while |pending| > 0
        invariant 0 <= n <= |listeners| && pending == listeners[n..]
        invariant invoked == Invocations(listeners[..n], call)
        invariant errors == Errors(listeners[..n], call, outcome)
        decreases |pending|
      {
        var listener := pending[0];
        pending := pending[1..];
        PrefixStep(listeners, n);
        ErrorsAppend(listeners[..n], [listener], call, outcome);
        invoked := invoked + [(listener, call)];
        var result := outcome(listener, call);
        if result.Some? {
          errors := errors + [result.value];
        }
        n := n + 1;
      }
      assert listeners[..n] == listeners;
      if |errors| > 0 {
        settled := Rejected(errors);
      } else {
        settled := Resolved;
      }
    }

    method OnWebSocketOpen(resumed: bool, outcome: Outcome) returns (invoked: seq<(Listener, ListenerCall)>, settled: Settled)
      ensures invoked == Invocations(listeners, WebSocketOpenCall(context, resumed))
      ensures settled == Settle(listeners, WebSocketOpenCall(context, resumed), outcome)
    {
      invoked, settled := Iterate(WebSocketOpenCall(context, resumed), outcome);
    }

    method OnSocketContextPaused(outcome: Outcome) returns (invoked: seq<(Listener, ListenerCall)>, settled: Settled)
      ensures invoked == Invocations(listeners, ContextPausedCall(context))
      ensures settled == Settle(listeners, ContextPausedCall(context), outcome)
    {
      invoked, settled := Iterate(ContextPausedCall(context), outcome);
    }

    method OnSocketContextDestroyed(outcome: Outcome) returns (invoked: seq<(Listener, ListenerCall)>, settled: Settled)
      ensures invoked == Invocations(listeners, ContextDestroyedCall(context))
      ensures settled == Settle(listeners, ContextDestroyedCall(context), outcome)
    {
      invoked, settled := Iterate(ContextDestroyedCall(context), outcome);
    }

    method OnWebSocketMessageOut(message: Message, outcome: Outcome) returns (invoked: seq<(Listener, ListenerCall)>, settled: Settled)
      ensures invoked == Invocations(listeners, MessageOutCall(context, message))
      ensures settled == Settle(listeners, MessageOutCall(context, message), outcome)
    {
      invoked, settled := Iterate(MessageOutCall(context, message), outcome);
    }

    method OnNewPlayer(player: LavalinkPlayer, outcome: Outcome) returns (invoked: seq<(Listener, ListenerCall)>, settled: Settled)
      ensures invoked == Invocations(listeners, NewPlayerCall(context, player))
      ensures settled == Settle(listeners, NewPlayerCall(context, player), outcome)
    {
      invoked, settled := Iterate(NewPlayerCall(context, player), outcome);
    }

    method OnDestroyPlayer(player: LavalinkPlayer, outcome: Outcome) returns (invoked: seq<(Listener, ListenerCall)>, settled: Settled)
      ensures invoked == Invocations(listeners, DestroyPlayerCall(context, player))
      ensures settled == Settle(listeners, DestroyPlayerCall(context, player), outcome)
    {
      invoked, settled := Iterate(DestroyPlayerCall(context, player), outcome);
    }
  }
}
