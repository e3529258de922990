/** The order webhook (`api/shopify-webhook/index.js`): it checks the request
    method and the HMAC signature, drops recurring subscription orders, resolves
    the `_fbp`/`_fbc` tracking identifiers (note attributes first, then the
    cookie proxy), canonicalises and hashes the customer's personal data,
    assembles one `Aimerce_Target` conversion event and delivers it once to the
    Meta Graph API.

    Everything the handler obtains from outside is a parameter: the HMAC digest
    (`Option<string>`, `None` when computing it throws), the proxy's and Meta's
    replies, the clock, SHA-256 and NFKD normalisation (`Services`). */
module Webhook {
  import opened JsValues
  import opened Normalize

  // ---------------------------------------------------------------------
  // Constants of the handler

  const RecurringTag: string := "Subscription Recurring Order"
  const RecurringSource: string := "subscription_contract"
  const FbpName: string := "_fbp"
  const FbcName: string := "_fbc"
  const EventName: string := "Aimerce_Target"
  const ActionSource: string := "website"
  const EventSourceUrl: string := "https://events.naitre.com"
  const DefaultCurrency: string := "GBP"
  const FallbackIp: string := "0.0.0.0"
  const FallbackUserAgent: string := "unknown"
  const FallbackEventKey: string := "order"

  // ---------------------------------------------------------------------
  // Data model

  /** One entry of `note_attributes`. An entry that is `null` or not an object
      is an item whose name and value are `undefined`. */
  datatype NoteItem = NoteItem(name: JsValue, value: JsValue)

  /** `body.customer || {}`: an absent customer has every field `undefined`. */
  datatype Customer = Customer(email: JsValue, phone: JsValue, firstName: JsValue, lastName: JsValue, id: JsValue)

  /** `body.billing_address || {}` or `body.shipping_address || {}`. */
  datatype Address = Address(
    phone: JsValue, firstName: JsValue, lastName: JsValue, city: JsValue,
    provinceCode: JsValue, zip: JsValue, countryCode: JsValue)

  /** The parsed order notification. `tags` is the tags string (empty when absent);
      `noteAttributes` is `None` when `note_attributes` is not an array;
      `createdAtMillis` is `created_at` parsed to milliseconds, `None` when it is falsy;
      `totalPrice` is `Number(total_price)`, `None` when that is NaN. */
  datatype Order = Order(
    id: JsValue, orderNumber: JsValue, email: JsValue,
    tags: string, sourceName: JsValue,
    noteAttributes: Option<seq<NoteItem>>,
    cartToken: JsValue, browserIp: JsValue, browserUserAgent: JsValue,
    createdAtMillis: Option<int>, currency: JsValue, totalPrice: Option<real>,
    customer: Customer, billing: Address, shipping: Address)

  /** The inbound request: method, the headers read (`x-shopify-hmac-sha256`,
      `x-forwarded-for`, `user-agent`), the socket's remote address and the body. */
  datatype Request = Request(
    httpMethod: string, hmacHeader: JsValue, forwardedFor: JsValue,
    userAgentHeader: JsValue, remoteAddress: JsValue, body: Order)

  /** `ENFORCE_HMAC`, `HAS_ADS_CONSENT` and `PROXY_COOKIE_LOOKUP_URL` ("" when unset). */
  datatype Config = Config(enforceHmac: bool, hasAdsConsent: bool, proxyLookupUrl: string)

  /** The configuration the handler ships with: report-only signatures, consent assumed. */
  function DeployedConfig(proxyLookupUrl: string): Config {
    Config(false, true, proxyLookupUrl)
  }

  /** The cookie proxy's answer: the fetch or `json()` threw, a non-ok status, or the parsed body. */
  datatype ProxyReply = ProxyThrew | ProxyNotOk | ProxyOk(data: JsValue)

  /** Meta's answer: `fetch` or `json()` threw with a message, or a reply with its ok flag and parsed body. */
  datatype MetaReply = MetaThrew(message: string) | MetaReplied(ok: bool, result: JsValue)

  datatype Services = Services(
    proxy: ProxyReply, meta: MetaReply, nowMillis: int,
    sha256: string -> string, nfkd: string -> string)

  /** The canonical personal fields, before hashing. */
  datatype Pii = Pii(
    email: string, phone: string, firstName: string, lastName: string,
    city: string, state: string, zip: string, country: string)

  /** `user_data`. A hashed field is `None` when its key is left out of the object. */
  datatype UserData = UserData(
    clientIpAddress: JsValue, clientUserAgent: JsValue, fbp: JsValue, fbc: JsValue,
    em: Option<seq<string>>, ph: Option<seq<string>>, fn: Option<seq<string>>, ln: Option<seq<string>>,
    ct: Option<seq<string>>, st: Option<seq<string>>, zp: Option<seq<string>>, country: Option<seq<string>>,
    externalId: Option<seq<string>>)

  datatype CustomData = CustomData(currency: JsValue, value: real, orderId: string)

  datatype ConversionEvent = ConversionEvent(
    eventName: string, eventTime: int, eventId: string, actionSource: string,
    eventSourceUrl: string, userData: UserData, customData: CustomData)

  /** A call the handler makes to the outside: a proxy lookup of a key, or the delivery of `{data}` to Meta. */
  datatype Call = ProxyLookup(baseUrl: string, key: string) | MetaSend(data: seq<ConversionEvent>)

  // ---------------------------------------------------------------------
  // Responses

  const MethodNotAllowed: Response := Response(405, Str("Method Not Allowed"))
  const InvalidSignature: Response := Response(401, Str("Invalid signature"))
  const SkipResponse: Response :=
    Response(200, Obj(map["success" := Bool(false), "message" := Str("Recurring order ignored")]))

  /** A `200` whose body says `success: false`: the skipped-order answer. */
  predicate IsSkip(r: Response) {
    r.status == 200 && Property(r.body, "success") == Some(Bool(false))
  }

  // ---------------------------------------------------------------------
  // Signature stage

  /** The enforcing-mode rejection: a digest could be computed, it differs from
      the header, and enforcement is on. A digest that throws is skipped. */
  predicate SignatureRejected(cfg: Config, digest: Option<string>, header: JsValue) {
    cfg.enforceHmac && digest.Some? && Str(digest.value) != header
  }

  /** As deployed, enforcement is off: no digest and no header is ever rejected,
      so `Handle` answers what `Process` answers for every POST, and PII is hashed. */
  lemma DeployedNeverRejects(proxyLookupUrl: string, digest: Option<string>, header: JsValue)
    ensures !SignatureRejected(DeployedConfig(proxyLookupUrl), digest, header)
    ensures DeployedConfig(proxyLookupUrl).hasAdsConsent
  {
  }

  // ---------------------------------------------------------------------
  // Recurring-order classification

  /** `.map(tag => tag.trim()).filter(Boolean)` over the split pieces. */
  function TrimmedNonEmpty(parts: seq<string>): (tags: seq<string>)
    ensures |tags| <= |parts|
    ensures forall i | 0 <= i < |tags| :: tags[i] != ""
  {
    if parts == [] then []
    else
      var rest := TrimmedNonEmpty(parts[1..]);
      if Trim(parts[0]) == "" then rest else [Trim(parts[0])] + rest
  }

  /** A tag survives exactly when it is non-empty and some piece trims to it. */
  lemma {:induction false} TrimmedNonEmptyMembers(parts: seq<string>, t: string)
    ensures t in TrimmedNonEmpty(parts) <==> t != "" && exists i | 0 <= i < |parts| :: Trim(parts[i]) == t
  {
    if parts != [] {
      TrimmedNonEmptyMembers(parts[1..], t);
      if exists i | 0 <= i < |parts| :: Trim(parts[i]) == t {
        var i :| 0 <= i < |parts| && Trim(parts[i]) == t;
        if i > 0 {
          assert Trim(parts[1..][i - 1]) == t;
        }
      }
      if exists i | 0 <= i < |parts[1..]| :: Trim(parts[1..][i]) == t {
        var i :| 0 <= i < |parts[1..]| && Trim(parts[1..][i]) == t;
        assert Trim(parts[i + 1]) == t;
      }
    }
  }

  /** `(body.tags || '').split(',').map(tag => tag.trim()).filter(Boolean)`. */
  function TagList(tags: string): seq<string> {
    TrimmedNonEmpty(Split(tags, ','))
  }

  predicate Excluded(o: Order) {
    RecurringTag in TagList(o.tags) || o.sourceName == Str(RecurringSource)
  }

  /** Some comma-separated piece of `tags` trims to `tag`. */
  predicate HasPiece(tags: string, tag: string) {
    var parts := Split(tags, ',');
    exists i | 0 <= i < |parts| :: Trim(parts[i]) == tag
  }

  lemma TagListMembers(tags: string, tag: string)
    requires tag != ""
    ensures tag in TagList(tags) <==> HasPiece(tags, tag)
  {
    TrimmedNonEmptyMembers(Split(tags, ','), tag);
  }

  /** An order is excluded exactly when some comma-separated piece of its tags
      trims to `"Subscription Recurring Order"` (case-sensitive), or its
      `source_name` is `"subscription_contract"`. */
  lemma ExcludedIff(o: Order)
    ensures Excluded(o) <==> HasPiece(o.tags, RecurringTag) || o.sourceName == Str(RecurringSource)
  {
    TagListMembers(o.tags, RecurringTag);
  }

  /** An empty tags string gives no tags at all. */
  lemma NoTagsWithoutText()
    ensures TagList("") == []
  {
  }

  // ---------------------------------------------------------------------
  // Tracking identifiers

  predicate Names(item: NoteItem, name: string) {
    item.name == Str(name)
  }

  /** The index of the last item with the given name, or -1. */
  function LastIndexNamed(items: seq<NoteItem>, name: string): (k: int)
    ensures -1 <= k < |items|
    ensures k >= 0 ==> Names(items[k], name)
    ensures forall j | k < j < |items| :: !Names(items[j], name)
  {
    if items == [] then -1
    else if Names(items[|items| - 1], name) then |items| - 1
    else LastIndexNamed(items[..|items| - 1], name)
  }

  /** The value of the last item with the given name, `null` when there is none. */
  function ValueOfLast(items: seq<NoteItem>, name: string): JsValue {
    var k := LastIndexNamed(items, name);
    if k < 0 then Null else items[k].value
  }

  /** What the note-attribute scan leaves in `fbp` (or `fbc`). */
  function NoteValue(attrs: Option<seq<NoteItem>>, name: string): JsValue {
    if attrs.None? then Null else ValueOfLast(attrs.value, name)
  }

  /** The scan yields the value of the LAST entry with the name, and `null`
      when no entry has it or `note_attributes` is not an array. */
  lemma NoteValueLastWins(attrs: Option<seq<NoteItem>>, name: string)
    ensures attrs.None? ==> NoteValue(attrs, name) == Null
    ensures attrs.Some? && (forall i | 0 <= i < |attrs.value| :: !Names(attrs.value[i], name)) ==>
      NoteValue(attrs, name) == Null
    ensures attrs.Some? ==> forall i | 0 <= i < |attrs.value| && Names(attrs.value[i], name) &&
      (forall j | i < j < |attrs.value| :: !Names(attrs.value[j], name)) ::
        NoteValue(attrs, name) == attrs.value[i].value
  {
    if attrs.Some? {
      var items := attrs.value;
      var k := LastIndexNamed(items, name);
      forall i | 0 <= i < |items| && Names(items[i], name) &&
        (forall j | i < j < |items| :: !Names(items[j], name))
        ensures NoteValue(attrs, name) == items[i].value
      {
        assert k == i;
      }
    }
  }

  /** The loop over `note_attributes` (lines 64-72). */
  method ScanNoteAttributes(attrs: Option<seq<NoteItem>>) returns (fbp: JsValue, fbc: JsValue)
    ensures fbp == NoteValue(attrs, FbpName)
    ensures fbc == NoteValue(attrs, FbcName)
  {
    fbp, fbc := Null, Null;
    if attrs.Some? {
      var items := attrs.value;
      var i := 0;
      while i < |items|
        invariant 0 <= i <= |items|
        invariant fbp == ValueOfLast(items[..i], FbpName)
        invariant fbc == ValueOfLast(items[..i], FbcName)
      {
        var item := items[i];
        if item.name == Str(FbpName) {
          fbp := item.value;
        }
        if item.name == Str(FbcName) {
          fbc := item.value;
        }
        assert items[..i + 1][..i] == items[..i];
        i := i + 1;
      }
      assert items[..|items|] == items;
    }
  }

  /** `body.cart_token || body.browser_ip || null`. */
  function LookupKey(o: Order): JsValue {
    Or(Or(o.cartToken, o.browserIp), Null)
  }

  /** The three conditions under which the proxy is asked. */
  predicate NeedsEnrichment(fbp: JsValue, fbc: JsValue, key: JsValue, url: string) {
    (!Truthy(fbp) || !Truthy(fbc)) && Truthy(key) && url != ""
  }

  /** `fbp = fbp || proxyData.fbp || null` and the same for `fbc`, for each kind
      of proxy reply; a failed request or a `null` body leaves both unchanged. */
  function Merge(fbp: JsValue, fbc: JsValue, reply: ProxyReply): (m: (JsValue, JsValue))
    ensures !reply.ProxyOk? ==> m == (fbp, fbc)
    ensures reply.ProxyOk? && (reply.data.Undefined? || reply.data.Null?) ==> m == (fbp, fbc)
    ensures Truthy(fbp) ==> m.0 == fbp
    ensures Truthy(fbc) ==> m.1 == fbc
    ensures reply.ProxyOk? && reply.data.Obj? && !Truthy(fbp) ==>
      m.0 == (if "fbp" in reply.data.props && Truthy(reply.data.props["fbp"]) then reply.data.props["fbp"] else Null)
    ensures reply.ProxyOk? && reply.data.Obj? && !Truthy(fbc) ==>
      m.1 == (if "fbc" in reply.data.props && Truthy(reply.data.props["fbc"]) then reply.data.props["fbc"] else Null)
  {
    match reply
    case ProxyOk(data) =>
      var pf, pc := Property(data, "fbp"), Property(data, "fbc");
      if pf.None? || pc.None? then (fbp, fbc)
      else (Or(Or(fbp, pf.value), Null), Or(Or(fbc, pc.value), Null))
    case _ => (fbp, fbc)
  }

  /** The identifiers after the scan and (when it runs) the proxy merge. */
  function ResolvedIdentifiers(o: Order, cfg: Config, proxy: ProxyReply): (JsValue, JsValue) {
    var fbp, fbc := NoteValue(o.noteAttributes, FbpName), NoteValue(o.noteAttributes, FbcName);
    if NeedsEnrichment(fbp, fbc, LookupKey(o), cfg.proxyLookupUrl) then Merge(fbp, fbc, proxy)
    else (fbp, fbc)
  }

  /** The proxy requests the handler makes: one when enrichment runs, none otherwise. */
  function ProxyCalls(o: Order, cfg: Config): (calls: seq<Call>)
    ensures |calls| <= 1 && forall i | 0 <= i < |calls| :: calls[i].ProxyLookup?
  {
    var fbp, fbc := NoteValue(o.noteAttributes, FbpName), NoteValue(o.noteAttributes, FbcName);
    if NeedsEnrichment(fbp, fbc, LookupKey(o), cfg.proxyLookupUrl)
    then [ProxyLookup(cfg.proxyLookupUrl, ToJsString(LookupKey(o)))]
    else []
  }

  /** Identifiers attached to the order always survive; the proxy only fills
      gaps, and a proxy that fails changes nothing. */
  lemma OrderIdentifiersWin(o: Order, cfg: Config, proxy: ProxyReply)
    ensures var ids := ResolvedIdentifiers(o, cfg, proxy);
      && (Truthy(NoteValue(o.noteAttributes, FbpName)) ==> ids.0 == NoteValue(o.noteAttributes, FbpName))
      && (Truthy(NoteValue(o.noteAttributes, FbcName)) ==> ids.1 == NoteValue(o.noteAttributes, FbcName))
      && (!proxy.ProxyOk? ==> ids == (NoteValue(o.noteAttributes, FbpName), NoteValue(o.noteAttributes, FbcName)))
    ensures ProxyCalls(o, cfg) == [] ==>
      ResolvedIdentifiers(o, cfg, proxy) == (NoteValue(o.noteAttributes, FbpName), NoteValue(o.noteAttributes, FbcName))
  {
  }

  // ---------------------------------------------------------------------
  // Personal data and user_data

  /** The canonical personal fields of an order (lines 109-116). */
  function PiiOf(o: Order, nfkd: string -> string): Pii {
    var c, b, s := o.customer, o.billing, o.shipping;
    Pii(
      Lc(Or(Or(c.email, o.email), Str(""))),
      CleanPhone(Or(Or(Or(c.phone, b.phone), s.phone), Str("")), DefaultCallingCode),
      CleanText(Or(Or(Or(c.firstName, b.firstName), s.firstName), Str("")), nfkd),
      CleanText(Or(Or(Or(c.lastName, b.lastName), s.lastName), Str("")), nfkd),
      CleanText(Or(Or(b.city, s.city), Str("")), nfkd),
      Up(Or(Or(b.provinceCode, s.provinceCode), Str(""))),
      TrimmedText(Or(Or(b.zip, s.zip), Str(""))),
      Up(Or(Or(b.countryCode, s.countryCode), Str(""))))
  }

  /** `String(customer.id || body.id)`, the input of `external_id`. */
  function ExternalIdSource(o: Order): string {
    ToJsString(Or(o.customer.id, o.id))
  }

  /** `body.browser_ip || x-forwarded-for || socket address || '0.0.0.0'`. */
  function ClientIp(req: Request): JsValue {
    Or(Or(Or(req.body.browserIp, req.forwardedFor), req.remoteAddress), Str(FallbackIp))
  }

  /** `body.browser_user_agent || user-agent header || 'unknown'`. */
  function UserAgent(req: Request): JsValue {
    Or(Or(req.body.browserUserAgent, req.userAgentHeader), Str(FallbackUserAgent))
  }

  /** `...(consent && v ? { key: [toSha256(v)] } : {})`. */
  function Hashed(consent: bool, v: string, sha256: string -> string): Option<seq<string>> {
    if consent && v != "" then Some([sha256(v)]) else None
  }

  function BuildUserData(
    ip: JsValue, ua: JsValue, fbp: JsValue, fbc: JsValue,
    pii: Pii, externalSource: string, consent: bool, sha256: string -> string): UserData
  {
    UserData(ip, ua, fbp, fbc,
      Hashed(consent, pii.email, sha256), Hashed(consent, pii.phone, sha256),
      Hashed(consent, pii.firstName, sha256), Hashed(consent, pii.lastName, sha256),
      Hashed(consent, pii.city, sha256), Hashed(consent, pii.state, sha256),
      Hashed(consent, pii.zip, sha256), Hashed(consent, pii.country, sha256),
      if consent then Some([sha256(externalSource)]) else None)
  }

  const HashedKeys: set<string> := {"em", "ph", "fn", "ln", "ct", "st", "zp", "country"}
  const AlwaysKeys: set<string> := {"client_ip_address", "client_user_agent", "fbp", "fbc"}

  /** The normalised value behind a hashed key. */
  function PiiField(pii: Pii, key: string): string {
    if key == "em" then pii.email
    else if key == "ph" then pii.phone
    else if key == "fn" then pii.firstName
    else if key == "ln" then pii.lastName
    else if key == "ct" then pii.city
    else if key == "st" then pii.state
    else if key == "zp" then pii.zip
    else if key == "country" then pii.country
    else ""
  }

  /** The `user_data` entry stored under a hashed key. */
  function HashedField(ud: UserData, key: string): Option<seq<string>> {
    if key == "em" then ud.em
    else if key == "ph" then ud.ph
    else if key == "fn" then ud.fn
    else if key == "ln" then ud.ln
    else if key == "ct" then ud.ct
    else if key == "st" then ud.st
    else if key == "zp" then ud.zp
    else if key == "country" then ud.country
    else None
  }

  /** The keys present in the `user_data` object. */
  function Keys(ud: UserData): set<string> {
    AlwaysKeys
    + (set k | k in HashedKeys && HashedField(ud, k).Some?)
    + (if ud.externalId.Some? then {"external_id"} else {})
  }

  /** The consent gate and the omission rule: a hashed key is present exactly
      when consent holds and its normalised value is non-empty, and then it holds
      the one-element list of that value's hash (never the hash of ""); the
      `external_id` key is present exactly under consent; the IP, user agent,
      fbp and fbc keys are always there. */
  lemma UserDataGate(
    ip: JsValue, ua: JsValue, fbp: JsValue, fbc: JsValue,
    pii: Pii, externalSource: string, consent: bool, sha256: string -> string)
    ensures var ud := BuildUserData(ip, ua, fbp, fbc, pii, externalSource, consent, sha256);
      && (forall k | k in HashedKeys :: k in Keys(ud) <==> consent && PiiField(pii, k) != "")
      && (forall k | k in HashedKeys && k in Keys(ud) ::
            PiiField(pii, k) != "" && HashedField(ud, k) == Some([sha256(PiiField(pii, k))]))
      && ("external_id" in Keys(ud) <==> consent)
      && (consent ==> ud.externalId == Some([sha256(externalSource)]))
      && AlwaysKeys <= Keys(ud)
      && ud.clientIpAddress == ip && ud.clientUserAgent == ua && ud.fbp == fbp && ud.fbc == fbc
      && (!consent ==> Keys(ud) == AlwaysKeys)
  {
    var ud := BuildUserData(ip, ua, fbp, fbc, pii, externalSource, consent, sha256);
    forall k | k in HashedKeys
      ensures HashedField(ud, k) == Hashed(consent, PiiField(pii, k), sha256)
    {
    }
    assert "external_id" !in HashedKeys;
    assert "external_id" !in AlwaysKeys;
  }

  // ---------------------------------------------------------------------
  // Event id, time and custom_data

  /** `Math.floor(new Date(body.created_at || Date.now()).getTime() / 1000)`. */
  function EventTime(createdAtMillis: Option<int>, nowMillis: int): (t: int)
    ensures var ms := if createdAtMillis.Some? then createdAtMillis.value else nowMillis;
      t * 1000 <= ms < t * 1000 + 1000
  {
    var ms := if createdAtMillis.Some? then createdAtMillis.value else nowMillis;
    ms / 1000
  }

  /** `body.id || body.order_number || 'order'`. */
  function EventKey(o: Order): JsValue {
    Or(Or(o.id, o.orderNumber), Str(FallbackEventKey))
  }

  /** The template literal `${key}:${eventTime}`. */
  function EventId(key: JsValue, eventTime: int): string {
    ToJsString(key) + ":" + IntToString(eventTime)
  }

  /** The last index of `c` in `s`, or -1. */
  function LastIndexOf(s: string, c: char): (k: int)
    ensures -1 <= k < |s|
    ensures k >= 0 ==> s[k] == c
    ensures forall j | k < j < |s| :: s[j] != c
  {
    if s == [] then -1
    else if s[|s| - 1] == c then |s| - 1
    else LastIndexOf(s[..|s| - 1], c)
  }

  /** Splits an event id at its last colon into the order key and the time. */
  function ParseEventId(id: string): (string, Option<int>) {
    var k := LastIndexOf(id, ':');
    if k < 0 then (id, None) else (id[..k], ParseInt(id[k + 1..]))
  }

  /** The event id can be read back: the part before its last colon is the
      order key, the part after it the event time. */
  lemma {:induction false} EventIdDecodes(key: JsValue, eventTime: int)
    ensures ParseEventId(EventId(key, eventTime)) == (ToJsString(key), Some(eventTime))
  {
    var k, d := ToJsString(key), IntToString(eventTime);
    var id := EventId(key, eventTime);
    assert id == k + [':'] + d;
    var i := LastIndexOf(id, ':');
    assert id[|k|] == ':';
    assert i == |k|;
    assert id[..i] == k;
    assert id[i + 1..] == d;
    IntToStringRoundTrip(eventTime);
  }

  /** Hence the event id determines both the order key and the event time:
      two deliveries share an id only when they describe the same order at the
      same second. */
  lemma EventIdInjective(k1: JsValue, t1: int, k2: JsValue, t2: int)
    requires EventId(k1, t1) == EventId(k2, t2)
    ensures ToJsString(k1) == ToJsString(k2) && t1 == t2
  {
    EventIdDecodes(k1, t1);
    EventIdDecodes(k2, t2);
  }

  /** `Number(body.total_price) || 0`: NaN and zero both give 0. */
  function OrderValue(totalPrice: Option<real>): real {
    if totalPrice.Some? && totalPrice.value != 0.0 then totalPrice.value else 0.0
  }

  function BuildCustomData(o: Order): CustomData {
    CustomData(Or(o.currency, Str(DefaultCurrency)), OrderValue(o.totalPrice), ToJsString(o.id))
  }

  /** custom_data falls back to GBP and to a value of 0, and carries `String(body.id)`. */
  lemma CustomDataDefaults(o: Order)
    ensures !Truthy(o.currency) ==> BuildCustomData(o).currency == Str(DefaultCurrency)
    ensures Truthy(o.currency) ==> BuildCustomData(o).currency == o.currency
    ensures o.totalPrice.None? ==> BuildCustomData(o).value == 0.0
    ensures o.totalPrice.Some? ==> BuildCustomData(o).value == o.totalPrice.value
    ensures BuildCustomData(o).orderId == ToJsString(o.id)
  {
  }

  /** The conversion event built from an order and its resolved identifiers. */
  function AssembleEvent(req: Request, cfg: Config, svc: Services, fbp: JsValue, fbc: JsValue): ConversionEvent {
    var o := req.body;
    var t := EventTime(o.createdAtMillis, svc.nowMillis);
    ConversionEvent(
      EventName, t, EventId(EventKey(o), t), ActionSource, EventSourceUrl,
      BuildUserData(ClientIp(req), UserAgent(req), fbp, fbc, PiiOf(o, svc.nfkd),
        ExternalIdSource(o), cfg.hasAdsConsent, svc.sha256),
      BuildCustomData(o))
  }

  // ---------------------------------------------------------------------
  // Delivery

  /** The answer for each kind of Meta reply (lines 166-191). An ok reply is
      first logged with `result.events_received` and `result.fbtrace_id`
      (lines 183-186); when the parsed body is `null` that read throws, and the
      catch answers 500 with the TypeError's message. */
  function DeliveryResponse(meta: MetaReply): (r: Response)
    ensures r.status == 200 <==> meta.MetaReplied? && meta.ok && !(meta.result.Null? || meta.result.Undefined?)
    ensures r.status != 200 ==> r.status == 500
    ensures r.body.Obj? && Property(r.body, "success") == Some(Bool(r.status == 200))
    ensures r.status == 200 ==> Property(r.body, "result") == Some(meta.result)
    ensures meta.MetaReplied? && !meta.ok ==> Property(r.body, "error") == Some(meta.result)
    ensures meta.MetaThrew? ==> Property(r.body, "error") == Some(Str(meta.message))
    ensures meta.MetaReplied? && meta.ok && r.status == 500 ==>
      Property(r.body, "error") == Some(Str(ReadErrorMessage(meta.result, "events_received")))
  {
    match meta
    case MetaThrew(message) =>
      Response(500, Obj(map["success" := Bool(false), "error" := Str(message)]))
    case MetaReplied(ok, result) =>
      if !ok then Response(500, Obj(map["success" := Bool(false), "error" := result]))
      else if Property(result, "events_received").None? then
        Response(500, Obj(map["success" := Bool(false), "error" := Str(ReadErrorMessage(result, "events_received"))]))
      else Response(200, Obj(map["success" := Bool(true), "result" := result]))
  }

  /** An ok reply whose body is `null` ends in 500, not 200. */
  lemma NullResultFails()
    ensures DeliveryResponse(MetaReplied(true, Null)).status == 500
    ensures Property(DeliveryResponse(MetaReplied(true, Null)).body, "error") ==
      Some(Str(ReadErrorMessage(Null, "events_received")))
  {
  }

  /** The number of deliveries among the calls. */
  function Deliveries(calls: seq<Call>): nat {
    if calls == [] then 0
    else (if calls[0].MetaSend? then 1 else 0) + Deliveries(calls[1..])
  }

  lemma {:induction false} DeliveriesAppend(a: seq<Call>, b: seq<Call>)
    ensures Deliveries(a + b) == Deliveries(a) + Deliveries(b)
  {
    if a == [] {
      assert a + b == b;
    } else {
      assert (a + b)[0] == a[0] && (a + b)[1..] == a[1..] + b;
      DeliveriesAppend(a[1..], b);
    }
  }

  // ---------------------------------------------------------------------
  // The pipeline after the method and signature gates

  /** What the handler does once the request is a POST and the signature stage
      has let it through: the answer and the calls made, in order. It reads
      neither the digest nor the signature header. */
  function Process(req: Request, cfg: Config, svc: Services): (Response, seq<Call>) {
    var o := req.body;
    if Excluded(o) then (SkipResponse, [])
    else
      var ids := ResolvedIdentifiers(o, cfg, svc.proxy);
      var event := AssembleEvent(req, cfg, svc, ids.0, ids.1);
      (DeliveryResponse(svc.meta), ProxyCalls(o, cfg) + [MetaSend([event])])
  }

  /** Proxy lookups followed by one delivery contain exactly one delivery, as the last call. */
  lemma DeliveredOnce(lookups: seq<Call>, event: ConversionEvent)
    requires forall i | 0 <= i < |lookups| :: lookups[i].ProxyLookup?
    ensures Deliveries(lookups + [MetaSend([event])]) == 1
  {
    DeliveriesAppend(lookups, [MetaSend([event])]);
    NoDeliveries(lookups);
    assert [MetaSend([event])][1..] == [];
  }

  lemma {:induction false} NoDeliveries(calls: seq<Call>)
    requires forall i | 0 <= i < |calls| :: calls[i].ProxyLookup?
    ensures Deliveries(calls) == 0
  {
    if calls != [] {
      assert calls[0].ProxyLookup?;
      NoDeliveries(calls[1..]);
    }
  }

  /** The calls made for an order that is not excluded: its proxy lookups, then one delivery. */
  lemma ProcessCalls(req: Request, cfg: Config, svc: Services)
    requires !Excluded(req.body)
    ensures var ids := ResolvedIdentifiers(req.body, cfg, svc.proxy);
      Process(req, cfg, svc).1 == ProxyCalls(req.body, cfg) + [MetaSend([AssembleEvent(req, cfg, svc, ids.0, ids.1)])]
    ensures Process(req, cfg, svc).0 == DeliveryResponse(svc.meta)
  {
  }

  /** A skip answer comes back exactly for excluded orders, and then nothing
      is called; any other order is delivered exactly once, as the last call,
      as a batch of one event. */
  lemma SkipIffExcluded(req: Request, cfg: Config, svc: Services)
    ensures IsSkip(Process(req, cfg, svc).0) <==> Excluded(req.body)
    ensures Excluded(req.body) ==> Process(req, cfg, svc) == (SkipResponse, [])
    ensures !Excluded(req.body) ==>
      var calls := Process(req, cfg, svc).1;
      && Deliveries(calls) == 1
      && calls[|calls| - 1].MetaSend? && |calls[|calls| - 1].data| == 1
  {
    if !Excluded(req.body) {
      ProcessCalls(req, cfg, svc);
      var ids := ResolvedIdentifiers(req.body, cfg, svc.proxy);
      DeliveredOnce(ProxyCalls(req.body, cfg), AssembleEvent(req, cfg, svc, ids.0, ids.1));
    }
  }

  /** Whether the note scan leaves a gap that the proxy is asked to fill. */
  predicate Enriches(o: Order, cfg: Config) {
    NeedsEnrichment(NoteValue(o.noteAttributes, FbpName), NoteValue(o.noteAttributes, FbcName), LookupKey(o), cfg.proxyLookupUrl)
  }

  /** The proxy is asked (once) exactly when the order is not excluded, fbp or
      fbc is missing after the note scan, a lookup key exists and a lookup URL is
      configured. */
  lemma EnrichmentGate(req: Request, cfg: Config, svc: Services)
    ensures (!Excluded(req.body) && Enriches(req.body, cfg)) <==>
      exists i | 0 <= i < |Process(req, cfg, svc).1| :: Process(req, cfg, svc).1[i].ProxyLookup?
    ensures !Excluded(req.body) && Enriches(req.body, cfg) ==>
      var calls := Process(req, cfg, svc).1;
      |calls| == 2 && calls[0] == ProxyLookup(cfg.proxyLookupUrl, ToJsString(LookupKey(req.body)))
  {
    var o, calls := req.body, Process(req, cfg, svc).1;
    if Excluded(o) {
      assert calls == [];
    } else {
      ProcessCalls(req, cfg, svc);
      var ids := ResolvedIdentifiers(o, cfg, svc.proxy);
      var lookups := ProxyCalls(o, cfg);
      LookupsThenDelivery(lookups, AssembleEvent(req, cfg, svc, ids.0, ids.1));
      if Enriches(o, cfg) {
        assert calls[0] == lookups[0];
        assert calls[0].ProxyLookup?;
      } else {
        assert lookups == [];
      }
    }
  }

  /** In lookups followed by a delivery, a lookup occurs exactly when there are lookups. */
  lemma LookupsThenDelivery(lookups: seq<Call>, event: ConversionEvent)
    ensures var calls := lookups + [MetaSend([event])];
      (exists i | 0 <= i < |calls| :: calls[i].ProxyLookup?) <==> exists i | 0 <= i < |lookups| :: lookups[i].ProxyLookup?
  {
    var calls := lookups + [MetaSend([event])];
    if exists i | 0 <= i < |calls| :: calls[i].ProxyLookup? {
      var i :| 0 <= i < |calls| && calls[i].ProxyLookup?;
      assert i < |lookups| && lookups[i].ProxyLookup?;
    }
    if exists i | 0 <= i < |lookups| :: lookups[i].ProxyLookup? {
      var i :| 0 <= i < |lookups| && lookups[i].ProxyLookup?;
      assert calls[i].ProxyLookup?;
    }
  }

  /** The event that is delivered, for an order that is not excluded. */
  function DeliveredEvent(req: Request, cfg: Config, svc: Services): (e: ConversionEvent)
    requires !Excluded(req.body)
    ensures var ids := ResolvedIdentifiers(req.body, cfg, svc.proxy);
      e == AssembleEvent(req, cfg, svc, ids.0, ids.1)
  {
    var ids := ResolvedIdentifiers(req.body, cfg, svc.proxy);
    AssembleEvent(req, cfg, svc, ids.0, ids.1)
  }

  /** The delivered event is the one batch in the last call. */
  lemma DeliveredEventIsSent(req: Request, cfg: Config, svc: Services)
    requires !Excluded(req.body)
    ensures var calls := Process(req, cfg, svc).1;
      calls[|calls| - 1] == MetaSend([DeliveredEvent(req, cfg, svc)])
  {
    ProcessCalls(req, cfg, svc);
  }

  /** The delivered event's fixed fields, its time and id, and its custom data
      (lines 124-125 and 146-160). */
  lemma DeliveredEventFields(req: Request, cfg: Config, svc: Services)
    requires !Excluded(req.body)
    ensures var e, o := DeliveredEvent(req, cfg, svc), req.body;
      && e.eventName == EventName && e.actionSource == ActionSource && e.eventSourceUrl == EventSourceUrl
      && e.eventTime == EventTime(o.createdAtMillis, svc.nowMillis)
      && e.eventId == EventId(EventKey(o), e.eventTime)
      && ParseEventId(e.eventId) == (ToJsString(EventKey(o)), Some(e.eventTime))
      && e.customData == BuildCustomData(o)
      && e.userData.clientIpAddress == ClientIp(req) && e.userData.clientUserAgent == UserAgent(req)
  {
    var e, o := DeliveredEvent(req, cfg, svc), req.body;
    EventIdDecodes(EventKey(o), e.eventTime);
  }

  /** With consent, every personal field present and both tracking ids in the
      note attributes, the delivered event carries all eight hashed fields, the
      external id and the four plain keys, with the note attributes' fbp and fbc. */
  lemma FullEventScenario(req: Request, cfg: Config, svc: Services)
    requires !Excluded(req.body) && cfg.hasAdsConsent
    requires var p := PiiOf(req.body, svc.nfkd);
      p.email != "" && p.phone != "" && p.firstName != "" && p.lastName != "" &&
      p.city != "" && p.state != "" && p.zip != "" && p.country != ""
    requires Truthy(NoteValue(req.body.noteAttributes, FbpName)) && Truthy(NoteValue(req.body.noteAttributes, FbcName))
    ensures var e := DeliveredEvent(req, cfg, svc);
      && Keys(e.userData) == AlwaysKeys + HashedKeys + {"external_id"}
      && e.userData.fbp == NoteValue(req.body.noteAttributes, FbpName)
      && e.userData.fbc == NoteValue(req.body.noteAttributes, FbcName)
      && e.eventName == EventName && e.actionSource == ActionSource
  {
    var o := req.body;
    var ids := ResolvedIdentifiers(o, cfg, svc.proxy);
    OrderIdentifiersWin(o, cfg, svc.proxy);
    var p := PiiOf(o, svc.nfkd);
    var ud := BuildUserData(ClientIp(req), UserAgent(req), ids.0, ids.1, p, ExternalIdSource(o), true, svc.sha256);
    assert DeliveredEvent(req, cfg, svc).userData == ud;
    FullUserData(ClientIp(req), UserAgent(req), ids.0, ids.1, p, ExternalIdSource(o), svc.sha256);
  }

  /** With consent and every personal field non-empty, all keys are present. */
  lemma FullUserData(
    ip: JsValue, ua: JsValue, fbp: JsValue, fbc: JsValue,
    pii: Pii, externalSource: string, sha256: string -> string)
    requires pii.email != "" && pii.phone != "" && pii.firstName != "" && pii.lastName != ""
    requires pii.city != "" && pii.state != "" && pii.zip != "" && pii.country != ""
    ensures Keys(BuildUserData(ip, ua, fbp, fbc, pii, externalSource, true, sha256)) ==
      AlwaysKeys + HashedKeys + {"external_id"}
  {
    var ud := BuildUserData(ip, ua, fbp, fbc, pii, externalSource, true, sha256);
    forall k | k in HashedKeys ensures HashedField(ud, k).Some? {
    }
    assert (set k | k in HashedKeys && HashedField(ud, k).Some?) == HashedKeys;
  }

  /** The signature header plays no part once the signature stage is passed. */
  lemma ProcessIgnoresSignatureHeader(req: Request, cfg: Config, svc: Services, header: JsValue)
    ensures Process(req.(hmacHeader := header), cfg, svc) == Process(req, cfg, svc)
  {
  }

  // ---------------------------------------------------------------------
  // The handler

  /** The proxy step (lines 75-91): when fbp or fbc is missing, a lookup key
      exists and a lookup URL is configured, one lookup is made and its answer
      merged; otherwise nothing is called and nothing changes. */
  method EnrichFromProxy(o: Order, cfg: Config, proxy: ProxyReply, fbp0: JsValue, fbc0: JsValue)
    returns (fbp: JsValue, fbc: JsValue, calls: seq<Call>)
    ensures NeedsEnrichment(fbp0, fbc0, LookupKey(o), cfg.proxyLookupUrl) ==>
      (fbp, fbc) == Merge(fbp0, fbc0, proxy) && calls == [ProxyLookup(cfg.proxyLookupUrl, ToJsString(LookupKey(o)))]
    ensures !NeedsEnrichment(fbp0, fbc0, LookupKey(o), cfg.proxyLookupUrl) ==>
      fbp == fbp0 && fbc == fbc0 && calls == []
  {
    fbp, fbc, calls := fbp0, fbc0, [];
    var lookupKey := Or(Or(o.cartToken, o.browserIp), Null);
    if (!Truthy(fbp) || !Truthy(fbc)) && Truthy(lookupKey) && cfg.proxyLookupUrl != "" {
      calls := calls + [ProxyLookup(cfg.proxyLookupUrl, ToJsString(lookupKey))];
      if proxy.ProxyOk? {
        var proxyData := proxy.data;
        var pf := Property(proxyData, "fbp");
        if pf.Some? {
          fbp := Or(Or(fbp, pf.value), Null);
          var pc := Property(proxyData, "fbc");
          fbc := Or(Or(fbc, pc.value), Null);
        }
      }
    }
  }

  /** `handler(req, res)`: returns the answer and the external calls made. */
  method Handle(req: Request, cfg: Config, digest: Option<string>, svc: Services)
    returns (resp: Response, calls: seq<Call>)
    ensures req.httpMethod != "POST" ==> resp == MethodNotAllowed && calls == []
    ensures req.httpMethod == "POST" && SignatureRejected(cfg, digest, req.hmacHeader) ==>
      resp == InvalidSignature && calls == []
    ensures req.httpMethod == "POST" && !SignatureRejected(cfg, digest, req.hmacHeader) ==>
      (resp, calls) == Process(req, cfg, svc)
    ensures req.httpMethod == "POST" && !cfg.enforceHmac ==> (resp, calls) == Process(req, cfg, svc)
  {
    if req.httpMethod != "POST" {
      return MethodNotAllowed, [];
    }

    if digest.Some? {
      var ok := Str(digest.value) == req.hmacHeader;
      if !ok && cfg.enforceHmac {
        return InvalidSignature, [];
      }
    }

    var body := req.body;
    var isRecurring := RecurringTag in TagList(body.tags);
    var isFromRecharge := body.sourceName == Str(RecurringSource);
    if isRecurring || isFromRecharge {
      return SkipResponse, [];
    }

    var fbp, fbc := ScanNoteAttributes(body.noteAttributes);

    var lookups;
    fbp, fbc, lookups := EnrichFromProxy(body, cfg, svc.proxy, fbp, fbc);
    calls := lookups;

    assert (fbp, fbc) == ResolvedIdentifiers(body, cfg, svc.proxy);
    assert calls == ProxyCalls(body, cfg);
    ProcessCalls(req, cfg, svc);
    var event := AssembleEvent(req, cfg, svc, fbp, fbc);
    calls := calls + [MetaSend([event])];
    resp := DeliveryResponse(svc.meta);
  }
}
