# Order webhook to Meta conversion event: a Dafny model

This project models three serverless request handlers.

- `api/shopify-webhook/index.js` receives Shopify "order" notifications. It:
  - accepts only POST;
  - checks the HMAC signature, in report-only or enforcing mode;
  - ignores recurring subscription orders;
  - resolves the `_fbp`/`_fbc` tracking identifiers, first from the order's note attributes, then from a cookie proxy;
  - canonicalises the customer's personal data (`lc`, `up`, `cleanText`, `cleanPhone`) and hashes it under a consent gate;
  - builds one `Aimerce_Target` conversion event and posts it once to the Meta Graph API;
  - maps Meta's reply to the HTTP answer.
- `api/store-meta-cookies.js` stores `{fbp, fbc, timestamp}` in its in-memory table. The key is the session id, or the client IP when there is no session id.
- `api/lookup-meta-cookies.js` answers the `fbp` and `fbc` stored under a key, or 404. It reads only its own table, which is empty and never written.

Modules:

- `JsValues` (`jsvalues.dfy`) holds the JavaScript value semantics the handlers rely on: values, truthiness, `||`, property reads that throw on `null`/`undefined`, `String(x)`, `trim`, ASCII case mapping, `split`, and decimal numerals.
- `Normalize` (`normalize.dfy`) holds the four canonicalisation helpers.
- `Webhook` (`webhook.dfy`) holds the order handler. The pure stages are functions, and `Process` composes them into the answer plus the list of outbound calls. The imperative `Handle` method follows the handler's early returns. Its loop is `ScanNoteAttributes` (the `note_attributes` loop), and its in-place update is `EnrichFromProxy` (the straight-line reassignment of `fbp`/`fbc`). `Handle` is proved equal to `Process` once the method and signature checks pass.
- `StoreCookies` (`store_cookies.dfy`) holds the table. It is a class `CookieStore` with a `map` field, updated in place by `Handle`. `Handle` is specified by the pure step function `StoreStep`, and the lemmas are about `StoreStep`.
- `LookupCookies` (`lookup_cookies.dfy`) holds the lookup, a pure function of (method, key, table).

Everything the handlers obtain from outside is a parameter:

- the HMAC digest, an `Option<string>` that is `None` when computing it throws;
- the proxy's reply and Meta's reply, each a datatype of outcomes;
- the clock, in milliseconds;
- SHA-256 and NFKD normalisation, each a function `string -> string`;
- the three configuration flags (`Config`).

`DeployedConfig` is the configuration the file ships with: enforcement off, consent on. `DeployedNeverRejects` shows that under it no signature is ever rejected.

The code hashes eight personal fields, including the country. It excludes an order on exactly two conditions, the tag match and `source_name`; it has no line-item or selling-plan check.

## Model

| member | source | states |
|---|---|---|
| JsValues.Trim | api/shopify-webhook/index.js:99 | definition of `trim` as TrimEnd after TrimStart; properties in TrimCharacterisation and TrimIdempotent |
| JsValues.ToJsString | api/shopify-webhook/index.js:99 | definition of `String(v)` and `.toString()`; its numeral case is read back in IntToStringRoundTrip |
| JsValues.OrAssociative | api/shopify-webhook/index.js:109-116 | a chain of or-operators picks the first truthy operand, whichever way it is grouped, and is truthy iff some operand is |
| JsValues.Property | api/store-meta-cookies.js:8 | a property read throws exactly on `undefined` and `null`; on an object it gives the own property or `undefined` |
| JsValues.ParseNatToString | api/shopify-webhook/index.js:125 | reading back the decimal numeral of a natural number gives the number |
| JsValues.IntToStringRoundTrip | api/shopify-webhook/index.js:125 | the numeral of any integer, sign included, reads back to that integer |
| JsValues.IntToString | api/shopify-webhook/index.js:125 | the numeral of an integer is non-empty and has no colon |
| JsValues.NatToString | api/shopify-webhook/index.js:125 | the digits a template literal prints for a natural number: a non-empty digit string with no leading zero except for 0 itself; read back in ParseNatToString |
| JsValues.ReadErrorMessage | api/shopify-webhook/index.js:183-190 | definition of the TypeError message that `error.message` carries when `result.events_received` is read from `null` or `undefined`; used in DeliveryResponse and NullResultFails |
| JsValues.TrimStart | api/shopify-webhook/index.js:99 | keeps a suffix of the input, drops only whitespace, and leaves no leading whitespace |
| JsValues.TrimEnd | api/shopify-webhook/index.js:99 | keeps a prefix of the input, drops only whitespace, and leaves no trailing whitespace |
| JsValues.IsWhiteSpace | api/shopify-webhook/index.js:99-102 | definition of the ECMAScript WhiteSpace and LineTerminator set, which both `trim` and `\s` use; properties in TrimCharacterisation and CleanTextShape |
| JsValues.TrimCharacterisation | api/shopify-webhook/index.js:54 | `trim` gives the contiguous slice left after cutting whitespace at both ends, and that slice neither starts nor ends with whitespace |
| JsValues.TrimIdempotent | api/shopify-webhook/index.js:115 | trimming twice is trimming once |
| JsValues.ToLowerCharacterisation | api/shopify-webhook/index.js:99 | same length and no upper-case letter left; a character that is not an upper-case letter is unchanged, and an upper-case letter becomes the lower-case letter whose upper case it is |
| JsValues.ToUpperCharacterisation | api/shopify-webhook/index.js:100 | same length and no lower-case letter left; a character that is not a lower-case letter is unchanged, and a lower-case letter becomes the upper-case letter whose lower case it is |
| JsValues.Split | api/shopify-webhook/index.js:54 | `split` gives at least one piece, and no piece contains the separator |
| JsValues.JoinSplit | api/shopify-webhook/index.js:54 | joining the pieces with the separator gives back the input |
| JsValues.SplitCount | api/shopify-webhook/index.js:54 | there is one piece more than there are separators |
| Normalize.CleanPhone | api/shopify-webhook/index.js:103-107 | definition of `cleanPhone`; properties in CleanPhoneContract and the examples |
| Normalize.HasPrefix | api/shopify-webhook/index.js:106 | definition of `startsWith`; used in CleanPhoneContract, CleanPhoneNational and CleanPhoneInternational |
| Normalize.CleanText | api/shopify-webhook/index.js:101-102 | definition of `cleanText`; properties in CleanTextShape, CleanTextLowerCase and CleanTextTrailingSpace |
| Normalize.TrimmedText | api/shopify-webhook/index.js:115 | definition of the postal-code rule; properties in TrimIdempotent and TrimCharacterisation |
| Normalize.Up | api/shopify-webhook/index.js:100 | definition of `up`; properties in UpCanonical |
| Normalize.Lc | api/shopify-webhook/index.js:99 | definition of `lc`; properties in LcCanonical and LcEmailExample |
| Normalize.LcCanonical | api/shopify-webhook/index.js:99 | `lc` output has no upper-case letter and no surrounding whitespace, and applying `lc` again changes nothing |
| Normalize.UpCanonical | api/shopify-webhook/index.js:100 | `up` output has no lower-case letter and no surrounding whitespace, and applying `up` again changes nothing |
| Normalize.LcEmailExample | api/shopify-webhook/index.js:109 | `"Test@Example.com "` becomes `"test@example.com"` |
| Normalize.StripPunctuation | api/shopify-webhook/index.js:102 | removing `[^\w\s-]` keeps only word characters, whitespace and hyphens, and never lengthens |
| Normalize.IsWordChar | api/shopify-webhook/index.js:102 | definition of `\w` without the `u` flag: ASCII letters, digits and `_`; used in CleanTextShape |
| Normalize.Kept | api/shopify-webhook/index.js:102 | definition of the characters `[^\w\s-]` does not match, the ones StripPunctuation keeps; used in CleanTextShape |
| Normalize.CollapseWhiteSpace | api/shopify-webhook/index.js:102 | replacing each whitespace run with one space leaves no two adjacent spaces, is empty exactly for the empty input, and never lengthens; what a run becomes is in CollapseRun |
| Normalize.CollapseKeepsText | api/shopify-webhook/index.js:102 | collapsing keeps the non-whitespace characters, in order |
| Normalize.CollapseSingleSpaced | api/shopify-webhook/index.js:102 | a string whose only whitespace is single spaces, never two adjacent, is its own collapse |
| Normalize.CollapseIdempotent | api/shopify-webhook/index.js:102 | collapsing twice is collapsing once |
| Normalize.CollapseConcat | api/shopify-webhook/index.js:102 | collapsing a concatenation whose first part is empty or ends in non-whitespace is collapsing each part: no whitespace run spans the split |
| Normalize.CollapseRun | api/shopify-webhook/index.js:102 | a non-empty whitespace run between text that does not end in whitespace and text that does not start with it becomes exactly one space, never none and never more |
| Normalize.CleanTextShape | api/shopify-webhook/index.js:101-102 | `cleanText` output holds only word characters, hyphens and single spaces, with no run of two spaces |
| Normalize.CleanTextLowerCase | api/shopify-webhook/index.js:101-102 | when NFKD leaves the lower-cased text as it is, `cleanText` output has no upper-case letter |
| Normalize.CleanTextTrailingSpace | api/shopify-webhook/index.js:101-102 | `cleanText` does not trim after stripping punctuation: `"O'Brien ."` becomes `"obrien "` |
| Normalize.Digits | api/shopify-webhook/index.js:105 | removing `\D+` leaves only digits and never lengthens; DigitsOfDigits, DigitsOfNonDigits and DigitsConcat pin the result down |
| Normalize.DigitsOfDigits | api/shopify-webhook/index.js:105 | a string of digits is left as it is |
| Normalize.DigitsOfNonDigits | api/shopify-webhook/index.js:105 | a string without any digit leaves nothing |
| Normalize.DigitsConcat | api/shopify-webhook/index.js:105 | removing `\D+` from a concatenation is removing it from each part; with the two lemmas above, the result is exactly the input's digits in order |
| Normalize.StripLeadingZeros | api/shopify-webhook/index.js:106 | removing `^0+` drops exactly a prefix of zeros and leaves no leading zero |
| Normalize.CleanPhoneContract | api/shopify-webhook/index.js:103-107 | a falsy phone gives `""`. Otherwise the result is all digits and starts with the calling code. Digits that already start with it are returned unchanged; other digits are the code followed by the digits with their leading zeros removed |
| Normalize.CleanPhoneIdempotent | api/shopify-webhook/index.js:103-107 | cleaning a cleaned number changes nothing |
| Normalize.CleanPhoneNational | api/shopify-webhook/index.js:106 | a trunk-zero number `0` + subscriber becomes code + subscriber |
| Normalize.CleanPhoneInternational | api/shopify-webhook/index.js:105-106 | `+` followed by digits that start with the code gives those digits |
| Normalize.CleanPhoneNationalExample | api/shopify-webhook/index.js:110 | `"07911123456"` becomes `"447911123456"` |
| Normalize.CleanPhoneInternationalExample | api/shopify-webhook/index.js:110 | `"+447911123456"` becomes `"447911123456"` |
| Normalize.CleanPhoneWithoutDigits | api/shopify-webhook/index.js:103-107 | a truthy phone field without any digit cleans to the bare calling code |
| Normalize.CleanPhoneNotAvailableExample | api/shopify-webhook/index.js:110 | `"n/a"` cleans to `"44"`, which is then hashed |
| Webhook.Process | api/shopify-webhook/index.js:42-191 | definition of the pipeline after the two gates; properties in SkipIffExcluded, EnrichmentGate, DeliveredEventIsSent, DeliveredOnce and Handle |
| Webhook.AssembleEvent | api/shopify-webhook/index.js:145-164 | definition of the conversion event; properties in DeliveredEventFields and FullEventScenario |
| Webhook.BuildCustomData | api/shopify-webhook/index.js:155-160 | definition of `custom_data`; properties in CustomDataDefaults |
| Webhook.OrderValue | api/shopify-webhook/index.js:157 | definition of `Number(total_price)`, else 0; properties in CustomDataDefaults |
| Webhook.EventId | api/shopify-webhook/index.js:125 | definition of the event id template; properties in EventIdDecodes and EventIdInjective |
| Webhook.EventKey | api/shopify-webhook/index.js:125 | definition of `id`, else `order_number`, else `'order'`; properties in EventIdDecodes |
| Webhook.BuildUserData | api/shopify-webhook/index.js:128-142 | definition of `user_data`; properties in UserDataGate and FullUserData |
| Webhook.Hashed | api/shopify-webhook/index.js:133-140 | definition of one consent-gated hashed entry; properties in UserDataGate |
| Webhook.UserAgent | api/shopify-webhook/index.js:122 | definition of the user-agent chain; carried into the event by DeliveredEventFields |
| Webhook.ClientIp | api/shopify-webhook/index.js:118-121 | definition of the client IP chain; carried into the event by DeliveredEventFields |
| Webhook.ExternalIdSource | api/shopify-webhook/index.js:141 | definition of `String(customer.id or body.id)`; used in UserDataGate |
| Webhook.PiiOf | api/shopify-webhook/index.js:109-116 | definition of the eight canonical personal fields; properties in the Normalize lemmas |
| Webhook.ResolvedIdentifiers | api/shopify-webhook/index.js:63-91 | definition of the identifiers after scan and merge; properties in OrderIdentifiersWin |
| Webhook.NeedsEnrichment | api/shopify-webhook/index.js:76 | definition of the three-part enrichment gate; properties in EnrichmentGate and EnrichFromProxy |
| Webhook.LookupKey | api/shopify-webhook/index.js:75 | definition of the lookup key; used in EnrichmentGate |
| Webhook.NoteValue | api/shopify-webhook/index.js:63-72 | definition of what the note scan leaves; properties in NoteValueLastWins and ScanNoteAttributes |
| Webhook.Excluded | api/shopify-webhook/index.js:54-58 | definition of the exclusion test; properties in ExcludedIff and SkipIffExcluded |
| Webhook.TagList | api/shopify-webhook/index.js:54 | definition of the tag list; properties in TagListMembers and NoTagsWithoutText |
| Webhook.TrimmedNonEmpty | api/shopify-webhook/index.js:54 | trim-and-filter keeps no empty tag and never adds pieces |
| Webhook.TrimmedNonEmptyMembers | api/shopify-webhook/index.js:54 | a tag is in the list iff it is non-empty and some piece trims to it |
| Webhook.TagListMembers | api/shopify-webhook/index.js:54-55 | a non-empty tag is included iff some comma-separated piece trims to it |
| Webhook.ExcludedIff | api/shopify-webhook/index.js:54-56 | an order is excluded iff a comma piece trims to exactly `"Subscription Recurring Order"` or `source_name` is `"subscription_contract"` |
| Webhook.NoTagsWithoutText | api/shopify-webhook/index.js:54 | absent or empty tags give no tags |
| Webhook.LastIndexNamed | api/shopify-webhook/index.js:67-71 | the index found names the entry, and no later entry has that name |
| Webhook.NoteValueLastWins | api/shopify-webhook/index.js:63-72 | the scan yields the value of the last entry with the name; `null` when no entry has it or `note_attributes` is not an array |
| Webhook.ScanNoteAttributes | api/shopify-webhook/index.js:63-72 | the loop leaves in `fbp`/`fbc` the values that `NoteValue` specifies |
| Webhook.Merge | api/shopify-webhook/index.js:80-90 | a failed or non-ok reply, or a null body, changes nothing. A truthy order value is kept. A missing value becomes the proxy's truthy value, else `null` |
| Webhook.ProxyCalls | api/shopify-webhook/index.js:76-79 | at most one call is made, and it is a proxy lookup |
| Webhook.OrderIdentifiersWin | api/shopify-webhook/index.js:75-91 | identifiers from the note attributes survive enrichment; a failed proxy, or no proxy call, leaves both as the scan left them |
| Webhook.EnrichFromProxy | api/shopify-webhook/index.js:75-91 | the proxy step calls and merges exactly when enrichment is needed, and otherwise changes nothing and calls nothing |
| Webhook.EnrichmentGate | api/shopify-webhook/index.js:74-91 | the proxy is asked iff the order is not excluded, fbp or fbc is missing, a lookup key exists and a URL is set. It is then asked once, first, with that key |
| Webhook.UserDataGate | api/shopify-webhook/index.js:128-142 | each of the eight hashed keys is present iff consent holds and its value is non-empty, and then it holds the one-element hash list of that value. `external_id` is present iff consent holds. The IP, user agent, fbp and fbc keys are always present. Without consent only those four keys remain |
| Webhook.FullUserData | api/shopify-webhook/index.js:128-142 | with consent and every field non-empty, all thirteen keys are present |
| Webhook.EventTime | api/shopify-webhook/index.js:124 | the event time is the floor of the milliseconds over 1000, from `created_at` or else the clock |
| Webhook.LastIndexOf | api/shopify-webhook/index.js:125 | the index found holds the character, and no later position does |
| Webhook.EventIdDecodes | api/shopify-webhook/index.js:125 | the event id splits at its last colon into the string of the first truthy of `id`, `order_number`, `'order'` and the event time |
| Webhook.EventIdInjective | api/shopify-webhook/index.js:124-125 | equal event ids mean the same order key and the same event time |
| Webhook.CustomDataDefaults | api/shopify-webhook/index.js:155-160 | the currency defaults to GBP and the value to 0; `order_id` is `String(body.id)` |
| Webhook.DeliveryResponse | api/shopify-webhook/index.js:166-191 | 200 iff Meta replied ok with a body that is not `null`, otherwise 500. `success` tells which. The body carries Meta's result, its error body, the exception message, or, for an ok reply with a `null` body, the message of the TypeError the success log raises |
| Webhook.NullResultFails | api/shopify-webhook/index.js:183-190 | an ok reply whose body is `null` is answered 500 with the TypeError's message |
| Webhook.DeliveredOnce | api/shopify-webhook/index.js:166-174 | lookups followed by one send contain exactly one delivery |
| Webhook.SkipIffExcluded | api/shopify-webhook/index.js:53-61 | the answer is the 200 `success: false` skip iff the order is excluded, and then no call is made. Otherwise there is exactly one delivery, the last call, carrying one event |
| Webhook.DeliveredEventIsSent | api/shopify-webhook/index.js:146-172 | the last call sends exactly the delivered event as a batch of one |
| Webhook.DeliveredEventFields | api/shopify-webhook/index.js:118-164 | fixed name, action source and URL. The event time and id come from the order, and the id decodes back. The custom data and client fields are those defined above |
| Webhook.FullEventScenario | api/shopify-webhook/index.js:128-142 | with consent, all personal fields and both note identifiers, the delivered event has every key and the note attributes' fbp and fbc |
| Webhook.ProcessIgnoresSignatureHeader | api/shopify-webhook/index.js:17-39 | past the signature stage, the header plays no part in the outcome |
| Webhook.Handle | api/shopify-webhook/index.js:12-192 | non-POST is answered 405 with no call. An enforced mismatch against a computable digest is answered 401 with no call. Otherwise the outcome is `Process`, and with enforcement off it is `Process` whatever the digest |
| Webhook.SignatureRejected | api/shopify-webhook/index.js:27-32 | true exactly when enforcement is on, a digest was computed, and it differs from the header; Handle answers 401 exactly then |
| Webhook.DeployedNeverRejects | api/shopify-webhook/index.js:7-10 | with the shipped configuration (enforcement off, consent on) no digest and no header is rejected, so by Handle's contract every POST gets `Process`'s answer |
| StoreCookies.StoreStep | api/store-meta-cookies.js:3-26 | definition of one store call on a table; properties in RejectedChangesNothing, StoreWritesOneKey, LaterStoreWins and DistinctStoresCommute |
| StoreCookies.BodyFields | api/store-meta-cookies.js:8 | destructuring the body throws exactly when it is `undefined` or `null` |
| StoreCookies.StoreKey | api/store-meta-cookies.js:9-11 | the key is the session id when truthy, else `x-forwarded-for` when truthy, else the socket address |
| StoreCookies.RejectedChangesNothing | api/store-meta-cookies.js:4-15 | a rejected request leaves the table unchanged: 405 for a non-POST, a throw for a missing body, 400 for a missing key. 200 `{success: true}` comes back iff the request is accepted |
| StoreCookies.StoreWritesOneKey | api/store-meta-cookies.js:17-21 | an accepted store inserts or overwrites exactly its key, with `{fbp, fbc, now}`, and keeps every other entry |
| StoreCookies.LaterStoreWins | api/store-meta-cookies.js:17-21 | a second store under the same key replaces the first as if it had never happened |
| StoreCookies.DistinctStoresCommute | api/store-meta-cookies.js:17-21 | stores under different keys commute |
| StoreCookies.SessionIdFirst | api/store-meta-cookies.js:11 | a request with session id `"abc"` is accepted and stored under `"abc"` |
| StoreCookies.CookieStore.constructor | api/store-meta-cookies.js:1 | the table starts empty |
| StoreCookies.CookieStore.Handle | api/store-meta-cookies.js:3-26 | the answer and new table are `StoreStep` of the old table; a rejection changes nothing; an acceptance writes the one record and answers 200 |
| LookupCookies.LookupIn | api/lookup-meta-cookies.js:3-17 | non-GET gives 405 and a falsy key 404. An own entry gives 200 with its fbp and fbc. The answer is 200 iff the key string is an own entry or an inherited member name |
| LookupCookies.Handle | api/lookup-meta-cookies.js:1-17 | on the file's own empty table, 200 comes back only for inherited member names, and then with neither fbp nor fbc |
| LookupCookies.DeployedLookupNotFound | api/lookup-meta-cookies.js:1-12 | as deployed, every GET for a key that is not an inherited member name ends in 404 |
| LookupCookies.PrototypeNameFound | api/lookup-meta-cookies.js:10-16 | a GET for `constructor` is answered 200 with neither fbp nor fbc |
| LookupCookies.LookupOwn | api/lookup-meta-cookies.js:10-16 | the intended lookup: 200 iff the key is an own entry, then exactly its fbp and fbc, otherwise 405 or 404 |
| LookupCookies.LookupOwnAgrees | api/lookup-meta-cookies.js:10-16 | the lookup as written and the intended one agree on every key except inherited member names that are not stored |
| LookupCookies.LookupAfterStore | api/lookup-meta-cookies.js:14-16 | were the two tables shared: after an accepted store, a lookup of that key answers the stored fbp and fbc and no timestamp |
| LookupCookies.LookupUnaffectedByOtherStore | api/lookup-meta-cookies.js:10-16 | a store under one key does not change the lookup of any other key |

## Findings

| source | as written | input that shows it | evidently intended | confidence | as-written member | corrected member |
|---|---|---|---|---|---|---|
| api/lookup-meta-cookies.js:10-16 | `!cookieStore[key]` reads a plain object, so members inherited from `Object.prototype` count as present | `GET ?key=constructor` answers 200 with neither fbp nor fbc, where no entry exists | only keys actually stored are found; anything else is 404 | medium, not executed | LookupCookies.PrototypeNameFound | LookupCookies.LookupOwn |

The lookup handler `LookupCookies.Handle` is modelled as written, on `LookupIn`. `LookupOwn` is the corrected lookup, and `LookupOwnAgrees` shows where the two part.

## Left out

- SHA-256, HMAC-SHA256 and Base64 are foreign calls. SHA-256 is a function parameter; the digest is an `Option<string>` input, compared to the header as an opaque value.
- The signature is computed over `JSON.stringify` of the parsed body, not the raw bytes. The model takes the digest as given, so it does not capture that the digest input is derived from the parsed body.
- Network calls (`fetch` to the proxy and to Meta, `response.json()`) are replaced by the reply datatypes. The URL-encoding of the lookup key (`encodeURIComponent`) is not modelled: the call records the raw key string.
- Logging (`console.*`) and the debug-log block are left out; they do not affect the outcome, except the success log's reads of `result.events_received` and `result.fbtrace_id` (lines 183-186), whose throw on a `null` body is modelled in `Webhook.DeliveryResponse`. The TypeError's message is written in Node's wording (`JsValues.ReadErrorMessage`).
- `Date.now()` and `new Date(created_at)` parsing are inputs in milliseconds. An unparseable `created_at`, which yields NaN in the event time, is not modelled.
- `Number(total_price)` is float parsing; the order carries its result as an optional real, with NaN as `None`. Numbers elsewhere are integers.
- NFKD normalisation is a function parameter. Case mapping and the classes `\s`, `\w`, `\d` cover ASCII letters and digits and the ECMAScript whitespace set; non-ASCII case mapping is not modelled.
- Normalize.CleanTextLowerCase: proved only when NFKD leaves the lower-cased text as it is, because NFKD is a parameter.
- `tags` is modelled as a string; a non-string `tags` value, on which `split` throws, is not modelled. A body that is not an object is not modelled for the order webhook.
- Header and socket fallbacks are modelled as a first-truthy chain over given values. Absent headers and sockets are `undefined` inputs.
- Concurrency, durability and sharing of the in-memory tables across serverless instances are not modelled. Each handler file has its own table, as in the code.
- StoreCookies.CookieStore.Handle: the key `__proto__` is stored as an ordinary entry, whereas assigning it on a plain object replaces the object's prototype.
- LookupCookies.LookupIn: a query key given several times (an array) is not modelled; keys are single values.
- Normalize.Lc, Normalize.Up and Normalize.CleanText take any value, so `Lc(Undefined)` is `"undefined"`, while `lc(undefined)` uses the default `''` and `lc(null)` throws. Every call site passes a `... || ''` chain, which is never `undefined` or `null`, so no outcome differs.
- JsValues.Property reads own properties only and ignores the prototype chain. The reads that go through `JsValues.Property` are only `session_id`, `fbp`, `fbc`, `success`, `result`, `error` and `events_received`, none of which `Object.prototype` defines; the other fields the handlers read (headers, body, query, the order's fields, the Meta reply) are fields of the request and reply datatypes. The lookup's inherited members are modelled separately in `LookupCookies.LookupIn`.
- Webhook.UserDataGate: the fbp and fbc keys are always present in the `user_data` object. The request body is `JSON.stringify(payload)` (line 172), which drops a key whose value is `undefined`, so a key can be missing from the bytes sent; serialisation is not modelled.
