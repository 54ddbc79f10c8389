# Welcome-popup admin app: webhook gate, compliance handlers, settings state

A Dafny model of the parts of this app that behave sequentially and are not
rendering or API plumbing:

- **The generic webhook route** (`app/routes/webhooks.jsx`). It reads the raw
  body text from a clone of the request. It computes the keyed digest of that
  text and compares it with the `x-shopify-hmac-sha256` header, answering 401 on
  a mismatch. Only after that does it look up the session and parse the body.
  Then it dispatches on the exact topic string: lower-case slash forms for the
  compliance topics, upper-case underscore forms in the `switch`.
- **`verifyShopifyWebhook`** (`app/utils/webhook-verification.js`): the same
  digest comparison as a stand-alone function.
- **The three compliance routes** (customers redact, shop redact, customers data
  request). Each is a transition over an abstract record store: sessions, shops,
  customers, orders, shop settings and an append-only webhook log. Every awaited
  store call is a numbered step that may throw. The `catch` block logs an
  `"error"` entry and the route still answers 200. Nothing is rolled back.
- **The admin page's state updates** (`app/routes/app._index.jsx`):
  - adding and removing selected countries;
  - editing one field of one country's popup settings;
  - building the save form;
  - folding the loaded metafield nodes into settings and countries;
  - the server action's choice of metafield key.

The keyed digest is HMAC (RFC 2104) over SHA-256 (FIPS 180-4), base64-encoded
per section 4 of RFC 4648. It is not modelled. It is the function parameter
`sign: (secret, text) -> text`, so every property holds for any digest function.
Tamper detection is therefore stated up to collisions: a header signed over one
body accepts another exactly when their digests agree. Two other things are
also parameters:

- The session that `authenticate.webhook` returns.
- What `JSON.parse` makes of the body: it throws, it yields `null`, or it yields
  another value.

An exception that escapes a route is the reply `Throws`; the web framework
answers those with 500.

Modules, one per source file or shared concern:

- `Wrappers`: `Option`.
- `Seqs`: order-preserving filter, counts, duplicates.
- `Records`: the store, the log and replies.
- `Compliance`: log writes and the `catch` path.
- `Signature`, `Webhooks`, `CustomersRedact`, `ShopRedact`, `DataRequest`,
  `Countries`, `PopupSettings` and `AdminAction`.

Three behaviours of the code worth knowing:

- The generic route parses the body before it tests the topic. An unparseable
  body therefore throws out of the action on every topic, the compliance slash
  forms included, and the framework answers 500.
- The lifecycle topics of the generic route have no error handling. A `null`
  body on `APP_SUBSCRIPTIONS_UPDATE`, or the `APP_UNINSTALLED` deletion, throws
  out of the action, and the framework answers 500.
- The generic route only acknowledges the compliance topics. The erasure lives
  in separate routes, which compare upper-case topic names.
- `prisma.shop.delete` throws when the row is gone. A redelivered shop
  redaction therefore ends with an `"error"` log entry, and still answers 200.

## Model

| member | source | states |
|---|---|---|
| `Signature.VerifyWebhook` | app/utils/webhook-verification.js:3-9 | true exactly when the header is present and equals the digest of the raw body under the secret; an absent header never verifies |
| `Signature.VerifyIgnoresTopicAndBody` | app/utils/webhook-verification.js:3-9 | the verdict is the same for any topic and any parsed body: only secret, header and raw text matter |
| `Signature.SignedBodyVerifies` | app/utils/webhook-verification.js:4-9 | a header signed with the same secret over the same raw body always verifies |
| `Signature.TamperedBodyFails` | app/utils/webhook-verification.js:4-9 | a header signed over one body accepts another raw body exactly when the two digests agree, so a tampered body is rejected unless its digest collides |
| `Signature.EmptyHeaderFails` | app/utils/webhook-verification.js:4-9 | an empty header never verifies, since a base64 SHA-256 digest has 44 characters |
| `Webhooks.RouteOf` | app/routes/webhooks.jsx:31-63 | each route is taken for exactly its literal topic strings (three slash forms to the compliance ack, three underscore forms to their cases); anything else, or no header, is the default |
| `Webhooks.DeleteSessions` | app/routes/webhooks.jsx:50 | after `deleteMany({ where: { shop } })` a session remains exactly when it was there and belongs to another shop; no shop header deletes nothing |
| `Webhooks.Uninstall` | app/routes/webhooks.jsx:48-52 | with a session, exactly the header shop's sessions are removed; without one the store is unchanged; nothing but sessions changes |
| `Webhooks.Handle` | app/routes/webhooks.jsx:4-65 | 401 if and only if the digest mismatches, and then the store is unchanged; a verified body that does not parse, whatever the topic, or a `null` body on APP_SUBSCRIPTIONS_UPDATE (whose `body.app_subscription` throws), throws with the store unchanged; every other verified request answers 200; only APP_UNINSTALLED with a session changes the store, removing exactly that shop's sessions |
| `Webhooks.GateAgreesWithVerifier` | app/routes/webhooks.jsx:15-22 | the route's inline check accepts exactly the requests `verifyShopifyWebhook` accepts |
| `Webhooks.GateReadsRawBodyOnly` | app/routes/webhooks.jsx:6-22 | requests with the same raw text and header are refused alike whatever their topic, shop, session or parse behaviour: the digest is over the captured raw text |
| `Webhooks.UnverifiedReadsNothingElse` | app/routes/webhooks.jsx:6-28 | a request that fails the digest check has the same outcome whatever its topic, shop, session or body parse: nothing past the raw text and the header is read before the check, so the body is parsed only after it |
| `Webhooks.UninstallIdempotent` | app/routes/webhooks.jsx:50 | applying the uninstall deletion twice gives the store applying it once gives |
| `Webhooks.TopicFormsDoNotMix` | app/routes/webhooks.jsx:31-63 | the upper-case compliance names the compliance routes compare, and `app/uninstalled`, all fall to the default case here |
| `Webhooks.HandleAsWritten` | app/routes/webhooks.jsx:4-65 | as written, a verified APP_UNINSTALLED with a parseable body and a session throws at line 50 with the store unchanged; on every other request, the `null` subscription body included, it behaves as `Handle` |
| `Webhooks.UninstallAsWrittenThrows` | app/routes/webhooks.jsx:50 | on a concrete signed uninstall of a shop with a stored session, the code as written throws and keeps the session while the intended deletion answers 200 and removes it |
| `Records.FindCustomers` | app/routes/webhooks.customers.redact.jsx:27-34 | `findMany` returns exactly the customers of `shop_id` whose customer id is in `customer_ids` |
| `Compliance.Log` | app/routes/webhooks.customers.redact.jsx:13-20 | a log write appends exactly one entry with the given shop, topic, payload and status and touches no other table |
| `Compliance.Recover` | app/routes/webhooks.customers.redact.jsx:74-85 | the catch block appends one `"error"` entry carrying the message and answers 200, records untouched; if that write throws, the store is unchanged and the exception escapes |
| `CustomersRedact.DeleteCustomers` | app/routes/webhooks.customers.redact.jsx:50-57 | after `deleteMany` a customer remains exactly when it was there and fails the shop or the id condition |
| `CustomersRedact.Handle` | app/routes/webhooks.customers.redact.jsx:4-89 | another topic leaves the store and log unchanged with 200; the reply is 200 unless a step fails and the error-log write fails too; sessions, shops, orders and settings never change; the log only grows |
| `CustomersRedact.DeletesTargetedOrNothing` | app/routes/webhooks.customers.redact.jsx:11-85 | another topic, or a failure at or before `deleteMany`, leaves the customers unchanged; once `deleteMany` has run, exactly the targeted customers are gone, even when the `completed` log write then fails (no rollback) |
| `CustomersRedact.CompleteRunErases` | app/routes/webhooks.customers.redact.jsx:13-70 | a run without failure leaves no customer of `shop_id` with an id in `customer_ids` and keeps every other one; it logs `received`, `processing`, `completed` in order; the records logged as `data_to_delete` are exactly those deleted |
| `CustomersRedact.FailedRunLogsError` | app/routes/webhooks.customers.redact.jsx:74-85 | a failed run appends one `"error"` entry after a proper prefix of `received`, `processing`, `completed` |
| `CustomersRedact.RedeliveryDeletesNothing` | app/routes/webhooks.customers.redact.jsx:50-57 | a second delivery of the same payload changes nothing but the log |
| `ShopRedact.FindShop` | app/routes/webhooks.shop.redact.jsx:26-35 | `findUnique` finds a row exactly when the shop id exists, and its included customers, orders and settings are exactly those with that `shopId` |
| `ShopRedact.DropShop` | app/routes/webhooks.shop.redact.jsx:64-95 | the shop row is deleted exactly when the step passed and the row existed; a missing row makes `delete` fail with the record-not-found message (an abstract stand-in for Prisma's text), logged as `error`; `completed` is logged only after the row is gone; no other table changes |
| `ShopRedact.EraseShop` | app/routes/webhooks.shop.redact.jsx:50-80 | each deletion has happened exactly when its step passed, in the order customers, orders, settings, shop row; a missing shop row makes `delete` fail; earlier deletions persist; `completed` only when all passed |
| `ShopRedact.Prepared` | app/routes/webhooks.shop.redact.jsx:13-48 | the steps before the deletions change no records and log `received` then `processing` |
| `ShopRedact.Handle` | app/routes/webhooks.shop.redact.jsx:4-99 | another topic leaves everything unchanged with 200; the reply is 200 or an escaping error-log failure; sessions never change; the deletions done are exactly those of the steps that passed, with no rollback |
| `ShopRedact.CompleteRunErases` | app/routes/webhooks.shop.redact.jsx:13-80 | a run without failure on an existing shop removes its customers, orders, settings and shop row, keeps every other shop's rows, answers 200 and logs `received`, `processing`, `completed` |
| `ShopRedact.EarlyFailure` | app/routes/webhooks.shop.redact.jsx:13-95 | a failure before the deletions changes no records and logs `error`, after `received` when that was written |
| `ShopRedact.FailedRunLogsError` | app/routes/webhooks.shop.redact.jsx:84-98 | any failure, the missing shop row included, still answers 200 with a final `"error"` entry after a proper prefix of the complete run's statuses |
| `ShopRedact.EraseAbsentShop` | app/routes/webhooks.shop.redact.jsx:52-67 | on a store holding nothing of the shop, the deletions remove nothing and `delete` fails with the record-not-found message |
| `ShopRedact.AbsentShopLogsError` | app/routes/webhooks.shop.redact.jsx:13-95 | a run on a store holding nothing of the shop changes no records, answers 200, logs `received`, `processing`, `error` with the record-not-found message |
| `ShopRedact.RedeliveryLogsError` | app/routes/webhooks.shop.redact.jsx:52-95 | a second delivery after a complete run deletes nothing more and ends with the record-not-found `"error"` entry, still 200 |
| `DataRequest.OrdersOf` | app/routes/webhooks.customers.data_request.jsx:26-39 | the included `orders` of a customer are exactly the orders owned by its row |
| `DataRequest.SettingsOf` | app/routes/webhooks.customers.data_request.jsx:26-39 | the included `settings` of a customer are exactly the settings owned by its row |
| `DataRequest.FlatOrders` | app/routes/webhooks.customers.data_request.jsx:49 | an order is in `flatMap(c => c.orders)` exactly when some listed customer owns it |
| `DataRequest.FlatOrdersAppend` | app/routes/webhooks.customers.data_request.jsx:49 | the flattened orders come one customer's block after another, in customer order |
| `DataRequest.SettingsLists` | app/routes/webhooks.customers.data_request.jsx:50 | `map(c => c.settings)` has one entry per customer, the i-th being the i-th customer's settings |
| `DataRequest.FirstId` | app/routes/webhooks.customers.data_request.jsx:43 | `customer_ids[0]` is the first id, or absent when the list is empty |
| `DataRequest.Format` | app/routes/webhooks.customers.data_request.jsx:42-53 | the export holds exactly the shop's requested customers, exactly their orders, one settings entry per customer, the first requested id, and the payload's shop id and domain |
| `DataRequest.Handle` | app/routes/webhooks.customers.data_request.jsx:4-84 | another topic leaves everything unchanged with 200; no record is ever modified, only log entries appended; 200 unless the error-log write fails too; a complete run logs `received` then `processed` with the formatted export |
| `DataRequest.FailedRunLogsError` | app/routes/webhooks.customers.data_request.jsx:69-80 | a failed run logs `error`, after `received` when that was written |
| `Countries.AddCountry` | app/routes/app._index.jsx:274-279 | a non-empty code not yet selected is appended at the end; otherwise the list is unchanged; a list without duplicates stays so |
| `Countries.RemoveCountry` | app/routes/app._index.jsx:281-283 | the code no longer occurs, every other code occurs as often as before, and a list without duplicates stays so |
| `Countries.RemoveKeepsOrder` | app/routes/app._index.jsx:282 | removal distributes over concatenation, so the remaining codes keep their relative order |
| `Countries.RemoveUndoesAdd` | app/routes/app._index.jsx:274-283 | removing a code just added gives back the list before it |
| `Countries.AddIdempotent` | app/routes/app._index.jsx:276-278 | selecting the same code twice is selecting it once |
| `Countries.RemoveIdempotent` | app/routes/app._index.jsx:282 | removing a code twice is removing it once |
| `PopupSettings.SetField` | app/routes/app._index.jsx:285-293 | the edited field of the edited country has the new value; its other fields, and every other country, are as before; a country without settings gets just that field |
| `PopupSettings.SetFieldOverwrites` | app/routes/app._index.jsx:285-293 | the last edit of a field wins |
| `PopupSettings.SetFieldCommutes` | app/routes/app._index.jsx:285-293 | edits of different fields or countries commute |
| `PopupSettings.FieldOr` | app/routes/app._index.jsx:302-305 | `settings.x || ""` is the field's text, or "" when it is missing |
| `PopupSettings.SaveForm` | app/routes/app._index.jsx:295-308 | no form for a country without settings; otherwise the form carries the action name, the code and the four text fields with missing ones as "" |
| `PopupSettings.CodeOf` | app/routes/app._index.jsx:241 | settings are stored under the object's `countryCode`, or under `"undefined"` when it has none |
| `PopupSettings.LastCountries` | app/routes/app._index.jsx:246-252 | reference reading: no result exactly when no node is a parseable countries node |
| `PopupSettings.LastWelcome` | app/routes/app._index.jsx:238-245 | reference reading: no result exactly when no parseable welcome node carries the code |
| `PopupSettings.LoadFromCountries` | app/routes/app._index.jsx:237-253 | the fold's countries are those of the last parseable countries node, else the starting list |
| `PopupSettings.LoadFromSettings` | app/routes/app._index.jsx:237-253 | the fold's entry for a code is the last parseable welcome node with that code, else the starting entry |
| `PopupSettings.LoadStep` | app/routes/app._index.jsx:237-253 | a parseable welcome node replaces the settings of its one code and nothing else; a parseable countries node replaces the list and nothing else; any other node changes nothing |
| `PopupSettings.Load` | app/routes/app._index.jsx:234-256 | after loading, the selected countries are `['US']` unless a parseable countries node exists, and then the last one wins; a code has settings exactly when a parseable welcome node carries it, and they are the last such node's |
| `PopupSettings.LoadFromAppend` | app/routes/app._index.jsx:237-253 | loading a concatenation loads the second part on top of the first |
| `PopupSettings.UnparseableNodeSkipped` | app/routes/app._index.jsx:239-251 | inserting a node whose text does not parse changes nothing |
| `AdminAction.SettingsObject` | app/routes/app._index.jsx:59-65 | the saved settings object holds exactly the five settings fields the form carries, with their values |
| `AdminAction.Action` | app/routes/app._index.jsx:52-140 | `savePopupSettings` writes key `selected-welcome` with the settings object; `saveSelectedCountries` writes `selected-countries` with the parsed list, or throws when parsing fails; both in namespace `welcome` on the fixed owner `gid://shopify/Shop/1`; any other action goes on to product creation |
| `AdminAction.Write` | app/routes/app._index.jsx:85-99 | on the shop the request is addressed to, `metafieldsSet` creates or replaces the value under its key and leaves other keys alone; every other shop's metafields stay as they were |
| `AdminAction.SavesMissOtherShops` | app/routes/app._index.jsx:85-137 | a save of any form leaves the metafields of every shop but `gid://shopify/Shop/1` unchanged, so nothing saved loads back on such a shop |
| `AdminAction.CountriesForm` | app/routes/app._index.jsx:263-272 | the country-list save submits action `saveSelectedCountries` with the serialised list |
| `AdminAction.SettingsKeyIgnoresCountry` | app/routes/app._index.jsx:87-93 | settings saves for any two countries write the same key |
| `AdminAction.LastSettingsSaveWins` | app/routes/app._index.jsx:87-93 | a second settings save replaces the first, whatever the countries |
| `AdminAction.SaveThenLoadSettings` | app/routes/app._index.jsx:57-99 | loading the metafield a settings save wrote gives exactly that country's settings with the submitted text fields |
| `AdminAction.EarlierCountryLost` | app/routes/app._index.jsx:87-93 | after saves for two different countries, the fixed owner's stored metafield loads no settings for the first |
| `AdminAction.SaveThenLoadCountries` | app/routes/app._index.jsx:102-137 | given that parsing the submitted text gives the list back, loading the saved countries metafield gives that list |

## Left out

- HMAC-SHA256 and base64 are the parameter `sign`. The timing of the `!==`
  comparison, which is not constant-time, is not modelled.
- An unset `SHOPIFY_API_SECRET` is not modelled: `createHmac` throws on an undefined key. The secret is taken as a given string.
- `authenticate.webhook` and `authenticate.admin` are a library that is not part of this model:
  - In the generic route, `authenticate.webhook` is the `session` parameter. Its own checks and the exceptions it throws are not modelled.
  - The compliance routes are modelled from the point where it has returned `topic`, `shop` and `payload`.
- `JSON.parse` and `JSON.stringify` are abstract:
  - In the generic route, parsing maps the raw text to one of three outcomes: it throws, it yields `null`, or it yields another value. The value itself is not modelled, because the route only reads a property of it.
  - Log payloads are structured values, not text.
  - The `"received"` entry logs only the payload fields the handlers read (customer ids, shop id, shop domain). `JSON.stringify(payload)` logs the whole payload.
  - Client-side serialisation of the country list appears as the text `parse` maps back to the list.
- Only the filter semantics of the Prisma calls are modelled:
  - The schema is not part of this model. A customer's `orders` and `settings` relations are rows pointing at the customer's row id.
  - A payload lacking `customer_ids` or `shop_id` is not modelled. Prisma drops an `undefined` condition and widens the filter; the model takes the payload fields as present.
  - Failures are explicit fault values, one step at a time. A failing call has no partial effect.
- PopupSettings.LoadStep: skips a node whose text parses to the wrong JSON shape for its key (an array for `selected-welcome`, an object or `null` for `selected-countries`). The source would store such a value regardless: under the key "undefined" for `selected-welcome`, as the country list for `selected-countries`.
- PopupSettings.Load: inherits that skip from `LoadStep`, so its contract speaks only of nodes of the right shape.
- Signature.TamperedBodyFails: tamper detection holds only up to digest collisions. A fixed-length digest cannot be injective on all texts, so no stronger statement is true of HMAC-SHA256.
- AdminAction.Write: a save to the fixed owner `gid://shopify/Shop/1` is always stored. `metafieldsSet` can also reject it for other reasons, for example validation, and report that in `userErrors`. The action returns that result unread and throws nothing. The save-then-load lemmas therefore describe only the shop `gid://shopify/Shop/1` and accepted writes.
- AdminAction.SettingsObject: leaves out a form field the form does not carry. The source stores it as JSON `null`; this only differs for a missing `countryCode`, which would load under the key `"null"`.
- Webhooks.DeleteSessions: with the shop header absent, nothing is deleted. The model does not follow Prisma's handling of a `null` filter value any further.
- The loader's GraphQL query (`first: 50`) and the order of the nodes it returns are not modelled. The load lemmas hold for any node sequence.
- `handleCountryChange` also sets `currentSelection`, which only drives the dropdown's display.
- Not modelled at all:
  - the demo product creation and variant update;
  - JSX rendering, the `useEffect`/`fetch` plumbing and `getCodeSnippet`;
  - `EmailCollector.jsx`, `api.metafields.jsx`, `api.collect-email.jsx`, `api.welcome-email.jsx` and `session.server.js`;
  - console logging, timestamps, and concurrency between deliveries.

## Findings

| source | as written | input that shows it | evidently intended | confidence | as-written member | corrected member |
|---|---|---|---|---|---|---|
| app/routes/webhooks.jsx:50 | `await db.session.deleteMany({ where: { shop } })`, but the module never imports or declares `db`, so evaluating it throws a ReferenceError out of the action | a correctly signed `APP_UNINSTALLED` delivery for a shop whose session is stored | delete that shop's sessions and answer 200 | high; not executed | `Webhooks.HandleAsWritten` (exhibited by `Webhooks.UninstallAsWrittenThrows`) | `Webhooks.Handle` (deletion in `Webhooks.Uninstall`, idempotence in `Webhooks.UninstallIdempotent`) |
