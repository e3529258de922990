/** The cookie lookup endpoint (`api/lookup-meta-cookies.js`): a GET with a
    `key` query parameter answers the `fbp` and `fbc` stored under that key, or
    404. It only reads its table. That table is the file's own module-level
    `cookieStore`, which starts empty and which nothing writes; the store
    endpoint writes a different object. */
module LookupCookies {
  import opened JsValues
  import StoreCookies

  /** The members every plain object inherits from `Object.prototype`. Reading
      one of them from `{}` gives a function (or, for `__proto__`, the prototype
      object): a truthy value with no `fbp` or `fbc` property. */
  const ObjectPrototypeNames: set<string> := {
    "constructor", "hasOwnProperty", "isPrototypeOf", "propertyIsEnumerable",
    "toLocaleString", "toString", "valueOf", "__proto__",
    "__defineGetter__", "__defineSetter__", "__lookupGetter__", "__lookupSetter__"}

  const MethodNotAllowed: Response := Response(405, Obj(map["error" := Str("Method Not Allowed")]))
  const NotFound: Response := Response(404, Obj(map["error" := Str("Not found")]))

  /** The answer for a found entry: its fbp and fbc, without the timestamp. */
  function Found(fbp: JsValue, fbc: JsValue): Response {
    Response(200, Obj(map["fbp" := fbp, "fbc" := fbc]))
  }

  /** `handler(req, res)` against a table whose own properties are `entries`,
      for a request with method `httpMethod` and `req.query.key` equal to `key`.
      The property read `cookieStore[key]` uses the string form of the key and
      also sees inherited members. */
  function LookupIn(entries: map<string, StoreCookies.CookieRecord>, httpMethod: string, key: JsValue): (r: Response)
    ensures httpMethod != "GET" ==> r == MethodNotAllowed
    ensures httpMethod == "GET" && !Truthy(key) ==> r == NotFound
    ensures httpMethod == "GET" && Truthy(key) && ToJsString(key) in entries ==>
      r == Found(entries[ToJsString(key)].fbp, entries[ToJsString(key)].fbc)
    ensures r.status == 200 <==>
      httpMethod == "GET" && Truthy(key) && (ToJsString(key) in entries || ToJsString(key) in ObjectPrototypeNames)
    ensures r.status in {200, 404, 405}
  {
    if httpMethod != "GET" then MethodNotAllowed
    else if !Truthy(key) then NotFound
    else
      var name := ToJsString(key);
      if name in entries then
        var rec := entries[name];
        Found(rec.fbp, rec.fbc)
      else if name in ObjectPrototypeNames then Found(Undefined, Undefined)
      else NotFound
  }

  /** The handler as deployed, on its own never-written table. */
  function Handle(httpMethod: string, key: JsValue): (r: Response)
    ensures r.status == 200 <==> httpMethod == "GET" && Truthy(key) && ToJsString(key) in ObjectPrototypeNames
    ensures r.status == 200 ==> r == Found(Undefined, Undefined)
  {
    LookupIn(map[], httpMethod, key)
  }

  /** As deployed, a GET for any key that is not an inherited member name ends in 404. */
  lemma DeployedLookupNotFound(key: JsValue)
    requires ToJsString(key) !in ObjectPrototypeNames
    ensures Handle("GET", key) == NotFound
  {
  }

  /** The inherited member `constructor` is found: 200 with neither fbp nor fbc. */
  lemma PrototypeNameFound()
    ensures Handle("GET", Str("constructor")) == Found(Undefined, Undefined)
  {
    assert "constructor" in ObjectPrototypeNames;
  }

  /** The lookup the handler evidently intends: only the table's own entries are found. */
  function LookupOwn(entries: map<string, StoreCookies.CookieRecord>, httpMethod: string, key: JsValue): (r: Response)
    ensures r.status == 200 <==> httpMethod == "GET" && Truthy(key) && ToJsString(key) in entries
    ensures r.status == 200 ==> r == Found(entries[ToJsString(key)].fbp, entries[ToJsString(key)].fbc)
    ensures r.status != 200 ==> r == (if httpMethod != "GET" then MethodNotAllowed else NotFound)
  {
    if httpMethod != "GET" then MethodNotAllowed
    else if !Truthy(key) || ToJsString(key) !in entries then NotFound
    else
      var rec := entries[ToJsString(key)];
      Found(rec.fbp, rec.fbc)
  }

  /** The two lookups differ only on inherited member names. */
  lemma LookupOwnAgrees(entries: map<string, StoreCookies.CookieRecord>, httpMethod: string, key: JsValue)
    requires ToJsString(key) !in ObjectPrototypeNames || ToJsString(key) in entries
    ensures LookupIn(entries, httpMethod, key) == LookupOwn(entries, httpMethod, key)
  {
  }

  /** Were the two endpoints to share one table: after an accepted store, a GET
      for the same key answers the stored fbp and fbc, and no timestamp. */
  lemma LookupAfterStore(entries: map<string, StoreCookies.CookieRecord>, req: StoreCookies.StoreRequest, now: int, key: JsValue)
    requires StoreCookies.Accepted(req) && Truthy(key) && ToJsString(key) == StoreCookies.KeyOf(req)
    ensures var stored := StoreCookies.StoreStep(entries, req, now).entries;
      var f := StoreCookies.BodyFields(req.body).value;
      && LookupIn(stored, "GET", key) == Found(f.1, f.2)
      && LookupOwn(stored, "GET", key) == Found(f.1, f.2)
  {
    StoreCookies.StoreWritesOneKey(entries, req, now);
  }

  /** A store under one key does not change what a lookup of another key answers. */
  lemma LookupUnaffectedByOtherStore(
    entries: map<string, StoreCookies.CookieRecord>, req: StoreCookies.StoreRequest, now: int,
    httpMethod: string, key: JsValue)
    requires StoreCookies.Accepted(req) && ToJsString(key) != StoreCookies.KeyOf(req)
    ensures LookupIn(StoreCookies.StoreStep(entries, req, now).entries, httpMethod, key) == LookupIn(entries, httpMethod, key)
  {
    StoreCookies.StoreWritesOneKey(entries, req, now);
  }
}
