/**
 * The session PATCH endpoint (io/SessionRestHandler.js): `PATCH /:sessionId`
 * with an optional `resuming` flag and an optional `timeout` updates those two
 * settings of the named session and answers with both, read after the update.
 *
 * As written, the handler stores `timeout.inWholeSeconds`, a property read on the
 * parsed JSON body that no JSON number has (`TimeoutAsWritten`); `Patch` is the
 * evidently intended handler, which stores the timeout in seconds as given.
 */
module SessionRest {
  import opened Wrappers
  import opened JsMaps
  import opened Protocol
  import opened Session
  import opened Server

  /** A value of the parsed JSON request body; numbers are whole here. */
  datatype Json =
    | JNull
    | JBool(b: bool)
    | JNumber(n: int)
    | JString(s: string)
    | JArray(items: seq<Json>)
    | JObject(fields: seq<(string, Json)>)

  /** A JavaScript value taken from the body: `undefined` or a JSON value. */
  datatype JsValue = Undefined | Defined(json: Json)

  /**
   * The value of `key` in an object's fields: the last field of that name, as
   * `JSON.parse` keeps the last of duplicate keys; `undefined` when there is none.
   */
  function FieldValue(fields: seq<(string, Json)>, key: string): (r: JsValue)
    ensures r.Undefined? <==> forall i :: 0 <= i < |fields| ==> fields[i].0 != key
    ensures r.Defined? ==>
      exists i :: 0 <= i < |fields| && fields[i] == (key, r.json) && forall j :: i < j < |fields| ==> fields[j].0 != key
  {
    if fields == [] then Undefined
    else if fields[|fields| - 1].0 == key then Defined(fields[|fields| - 1].1)
    else
      var init := fields[..|fields| - 1];
      assert forall i :: 0 <= i < |init| ==> init[i] == fields[i];
      FieldValue(init, key)
  }

  /**
   * `v.inWholeSeconds` for a parsed JSON value: a `TypeError` on `null`, the field
   * of that name on an object, and `undefined` on every other value, since no
   * boolean, number, string or array has such a property.
   */
  function ReadInWholeSeconds(v: Json): (r: Result<JsValue, string>)
    ensures r.Err? <==> v.JNull?
    ensures r.Ok? && r.value.Defined? ==> v.JObject?
    ensures v.JObject? ==> r.Ok? && (r.value.Undefined? <==> forall i :: 0 <= i < |v.fields| ==> v.fields[i].0 != "inWholeSeconds")
  {
    match v
    case JNull => Err("TypeError: Cannot read properties of null (reading 'inWholeSeconds')")
    case JObject(fields) => Ok(FieldValue(fields, "inWholeSeconds"))
    case _ => Ok(Undefined)
  }

  /**
   * What io/SessionRestHandler.js:16-17, as written, does to the session's
   * `resumeTimeout`: `None` when `timeout` is `undefined` (the field is kept),
   * otherwise the value now stored, or the error raised while reading it.
   */
  function TimeoutAsWritten(timeout: JsValue): (r: Option<Result<JsValue, string>>)
    ensures r.None? <==> timeout.Undefined?
    ensures timeout.Defined? && timeout.json.JNumber? ==> r == Some(Ok(Undefined))
    ensures timeout.Defined? && timeout.json.JNull? ==> r.Some? && r.value.Err?
  {
    if timeout.Undefined? then None else Some(ReadInWholeSeconds(timeout.json))
  }

  /**
   * `JSON.stringify` of an object literal: properties whose value is `undefined`
   * are dropped, the others kept in order.
   */
  function Serialize(props: seq<(string, JsValue)>): (r: seq<(string, Json)>)
    ensures |r| <= |props|
    ensures forall k, j :: (k, j) in r ==> (k, Defined(j)) in props
    ensures forall k, j :: (k, Defined(j)) in props ==> (k, j) in r
  {
    if props == [] then []
    else
      var rest := Serialize(props[1..]);
      assert forall p :: p in props[1..] ==> p in props;
      assert props == [props[0]] + props[1..];
      if props[0].1.Defined? then [(props[0].0, props[0].1.json)] + rest else rest
  }

  /**
   * The request `{"timeout": n}` with a JSON number, as written: the session's
   * timeout becomes `undefined`, and the response `{resumable, timeout}` then has
   * no `timeout` field at all.
   */
  lemma {:induction false} NumericTimeoutLost(n: int, resumable: bool)
    ensures TimeoutAsWritten(Defined(JNumber(n))) == Some(Ok(Undefined))
    ensures var body := Serialize([("resumable", Defined(JBool(resumable))), ("timeout", Undefined)]);
      forall j :: ("timeout", j) !in body
  {
  }

  /**
   * The as-written read agrees with a timeout of `n` seconds only for a body that
   * wraps it as `{"timeout": {"inWholeSeconds": n}}`.
   */
  lemma ObjectTimeoutRead(n: int)
    ensures TimeoutAsWritten(Defined(JObject([("inWholeSeconds", JNumber(n))]))) == Some(Ok(Defined(JNumber(n))))
  {
  }

  /** The body of the PATCH request, as intended: an absent field is `None`; the timeout is in seconds. */
  datatype SessionUpdate = SessionUpdate(resuming: Option<bool>, timeout: Option<int>)

  /** The response body `{resumable, timeout}`. */
  datatype SessionInfo = SessionInfo(resumable: bool, timeout: int)

  /** The request failed: no live session has the path's id. */
  datatype PatchError = SessionNotFound(sessionId: SessionId)

  /**
   * Applies the update to the live session named by the path: `resuming`, when
   * given, becomes `resumable`; `timeout`, when given, becomes `resumeTimeout` in
   * seconds; the response reports both afterwards. Nothing else changes.
   */
  method Patch(server: SocketServer, sessionId: SessionId, body: SessionUpdate) returns (r: Result<SessionInfo, PatchError>)
    modifies if Has(server.sessions, sessionId) then {Get(server.sessions, sessionId).value} else {}
    ensures !old(Has(server.sessions, sessionId)) ==> r == Err(SessionNotFound(sessionId))
    ensures old(Has(server.sessions, sessionId)) ==>
      var c := old(Get(server.sessions, sessionId)).value;
      && c.resumable == (if body.resuming.Some? then body.resuming.value else old(c.resumable))
      && c.resumeTimeout == (if body.timeout.Some? then body.timeout.value else old(c.resumeTimeout))
      && r == Ok(SessionInfo(c.resumable, c.resumeTimeout))
      && c.players == old(c.players) && c.session == old(c.session)
      && c.sessionTimeoutFuture == old(c.sessionTimeoutFuture) && c.resumeEventQueue == old(c.resumeEventQueue)
  {
    var found := Get(server.sessions, sessionId);
    if found.None? {
      return Err(SessionNotFound(sessionId));
    }
    var context := found.value;
    if body.resuming.Some? {
      context.resumable := body.resuming.value;
    }
    if body.timeout.Some? {
      context.resumeTimeout := body.timeout.value;
    }
    return Ok(SessionInfo(context.resumable, context.resumeTimeout));
  }
}
