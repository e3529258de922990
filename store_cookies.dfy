/** The cookie store endpoint (`api/store-meta-cookies.js`): a POST carrying
    `session_id`, `fbp` and `fbc` writes `{fbp, fbc, timestamp}` into the
    module's in-memory table under `session_id`, or under the client IP when
    there is no session id. The clock (`Date.now()`) is a parameter. */
module StoreCookies {
  import opened JsValues

  /** The value stored per key. */
  datatype CookieRecord = CookieRecord(fbp: JsValue, fbc: JsValue, timestamp: int)

  /** The request as the handler reads it: the method, the parsed body, the
      `x-forwarded-for` header and the socket's remote address (`undefined`
      when there is no socket). */
  datatype StoreRequest = StoreRequest(httpMethod: string, body: JsValue, forwardedFor: JsValue, remoteAddress: JsValue)

  const MethodNotAllowed: Response := Response(405, Obj(map["error" := Str("Method Not Allowed")]))
  const MissingKey: Response := Response(400, Obj(map["error" := Str("Missing session ID or IP")]))
  const Stored: Response := Response(200, Obj(map["success" := Bool(true)]))

  /** `const { session_id, fbp, fbc } = req.body`: `None` when the body is
      `undefined` or `null`, where destructuring throws. */
  function BodyFields(body: JsValue): (f: Option<(JsValue, JsValue, JsValue)>)
    ensures f.None? <==> body.Undefined? || body.Null?
  {
    var sid, fbp, fbc := Property(body, "session_id"), Property(body, "fbp"), Property(body, "fbc");
    if sid.None? then None else Some((sid.value, fbp.value, fbc.value))
  }

  /** `session_id || clientIp`, where `clientIp` is `x-forwarded-for || socket address`. */
  function StoreKey(sessionId: JsValue, req: StoreRequest): (key: JsValue)
    ensures Truthy(sessionId) ==> key == sessionId
    ensures !Truthy(sessionId) && Truthy(req.forwardedFor) ==> key == req.forwardedFor
    ensures !Truthy(sessionId) && !Truthy(req.forwardedFor) ==> key == req.remoteAddress
  {
    Or(sessionId, Or(req.forwardedFor, req.remoteAddress))
  }

  /** The outcome of one call: the answer (`None` when the handler throws) and the table afterwards. */
  datatype Outcome = Outcome(answer: Option<Response>, entries: map<string, CookieRecord>)

  /** One call of the handler on a table. A property key is the string form of
      the key value (`cookieStore[key]` converts it with `String`). */
  function StoreStep(entries: map<string, CookieRecord>, req: StoreRequest, now: int): Outcome {
    if req.httpMethod != "POST" then Outcome(Some(MethodNotAllowed), entries)
    else
      var fields := BodyFields(req.body);
      if fields.None? then Outcome(None, entries)
      else
        var (sid, fbp, fbc) := fields.value;
        var key := StoreKey(sid, req);
        if !Truthy(key) then Outcome(Some(MissingKey), entries)
        else Outcome(Some(Stored), entries[ToJsString(key) := CookieRecord(fbp, fbc, now)])
  }

  /** Whether a request gets past the method, body and key checks. */
  predicate Accepted(req: StoreRequest) {
    req.httpMethod == "POST" && BodyFields(req.body).Some? &&
    Truthy(StoreKey(BodyFields(req.body).value.0, req))
  }

  /** The key an accepted request writes. */
  function KeyOf(req: StoreRequest): string
    requires Accepted(req)
  {
    ToJsString(StoreKey(BodyFields(req.body).value.0, req))
  }

  /** The record an accepted request writes. */
  function RecordOf(req: StoreRequest, now: int): CookieRecord
    requires Accepted(req)
  {
    var f := BodyFields(req.body).value;
    CookieRecord(f.1, f.2, now)
  }

  /** A request that is not accepted leaves the table as it was: a non-POST is
      answered 405, a missing key 400, and a missing body throws. An accepted
      one is answered 200 `{success: true}`. */
  lemma RejectedChangesNothing(entries: map<string, CookieRecord>, req: StoreRequest, now: int)
    ensures var out := StoreStep(entries, req, now);
      && (!Accepted(req) ==> out.entries == entries)
      && (req.httpMethod != "POST" ==> out.answer == Some(MethodNotAllowed))
      && (req.httpMethod == "POST" && (req.body.Undefined? || req.body.Null?) ==> out.answer.None?)
      && (out.answer == Some(MissingKey) <==> req.httpMethod == "POST" && BodyFields(req.body).Some? && !Accepted(req))
      && (out.answer == Some(Stored) <==> Accepted(req))
  {
  }

  /** An accepted request inserts or overwrites exactly its own key, with the
      body's fbp and fbc and the current time, and leaves every other key alone. */
  lemma StoreWritesOneKey(entries: map<string, CookieRecord>, req: StoreRequest, now: int)
    requires Accepted(req)
    ensures var m := StoreStep(entries, req, now).entries;
      && m.Keys == entries.Keys + {KeyOf(req)}
      && m[KeyOf(req)] == RecordOf(req, now)
      && (forall k | k in entries && k != KeyOf(req) :: m[k] == entries[k])
      && |m| <= |entries| + 1
  {
    var m := StoreStep(entries, req, now).entries;
    if KeyOf(req) in entries {
      assert m.Keys == entries.Keys;
    } else {
      assert m.Keys == entries.Keys + {KeyOf(req)};
    }
  }

  /** Two accepted writes under the same key: the later one wins, as if the
      earlier had never happened. */
  lemma LaterStoreWins(entries: map<string, CookieRecord>, r1: StoreRequest, t1: int, r2: StoreRequest, t2: int)
    requires Accepted(r1) && Accepted(r2) && KeyOf(r1) == KeyOf(r2)
    ensures StoreStep(StoreStep(entries, r1, t1).entries, r2, t2).entries == StoreStep(entries, r2, t2).entries
  {
  }

  /** Writes under different keys commute. */
  lemma DistinctStoresCommute(entries: map<string, CookieRecord>, r1: StoreRequest, t1: int, r2: StoreRequest, t2: int)
    requires Accepted(r1) && Accepted(r2) && KeyOf(r1) != KeyOf(r2)
    ensures StoreStep(StoreStep(entries, r1, t1).entries, r2, t2).entries ==
      StoreStep(StoreStep(entries, r2, t2).entries, r1, t1).entries
  {
  }

  /** The session id is preferred over the client IP as the key. */
  lemma SessionIdFirst(req: StoreRequest)
    requires req.body.Obj? && "session_id" in req.body.props && req.body.props["session_id"] == Str("abc")
    requires req.httpMethod == "POST"
    ensures Accepted(req) && KeyOf(req) == "abc"
  {
    assert Truthy(Str("abc"));
  }

  /** The module-level `cookieStore` with the handler that writes it. */
  class CookieStore {
    var entries: map<string, CookieRecord>

    /** `let cookieStore = {}`. */
    constructor()
      ensures entries == map[]
    {
      entries := map[];
    }

    /** `handler(req, res)` at time `now`; `None` when the handler throws. */
    method Handle(req: StoreRequest, now: int) returns (answer: Option<Response>)
      modifies this
      ensures Outcome(answer, entries) == StoreStep(old(entries), req, now)
      ensures !Accepted(req) ==> entries == old(entries)
      ensures Accepted(req) ==> entries == old(entries)[KeyOf(req) := RecordOf(req, now)] && answer == Some(Stored)
    {
      if req.httpMethod != "POST" {
        return Some(MethodNotAllowed);
      }

      var fields := BodyFields(req.body);
      if fields.None? {
        return None;
      }
      var (sessionId, fbp, fbc) := fields.value;
      var clientIp := Or(req.forwardedFor, req.remoteAddress);
      var key := Or(sessionId, clientIp);

      if !Truthy(key) {
        return Some(MissingKey);
      }

      entries := entries[ToJsString(key) := CookieRecord(fbp, fbc, now)];
      return Some(Stored);
    }
  }
}
