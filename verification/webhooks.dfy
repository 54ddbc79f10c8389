/** app/routes/webhooks.jsx: the signature gate and topic dispatch of the
    generic webhook route.

    The order of the source is kept: the raw body text is read from a clone
    of the request before anything consumes it; its digest is compared with
    the `x-shopify-hmac-sha256` header; only then is the session looked up
    (`authenticate.webhook`, a parameter here) and the body parsed (what
    `JSON.parse` makes of a text is the parameter `parse`); then the topic
    decides. */
module Webhooks {
  import opened Wrappers
  import opened Seqs
  import opened Records
  import opened Signature

  /** The parts of an inbound request the route reads. A header that was not
      sent is `None` (`headers.get` returns null). */
  datatype Request = Request(rawBody: string, hmac: Option<string>, topic: Option<string>, shop: Option<string>)

  /** What `JSON.parse` makes of a text: it throws, it yields `null`, or it
      yields some other value. Only the distinction between these three
      matters to the route: reading a property of `null` throws, reading one
      of any other value does not. */
  datatype Parsed = Unparseable | Null | Value

  /** The route's effect on the store and its reply. */
  datatype Outcome = Outcome(store: Store, reply: Reply)

  // Compliance topics, compared in their lower-case slash form.
  const DataRequestTopic: string := "customers/data_request"
  const CustomersRedactTopic: string := "customers/redact"
  const ShopRedactTopic: string := "shop/redact"
  // Lifecycle topics, compared in their upper-case underscore form.
  const AppUninstalled: string := "APP_UNINSTALLED"
  const SubscriptionsUpdate: string := "APP_SUBSCRIPTIONS_UPDATE"
  const PurchasesOneTimeUpdate: string := "APP_PURCHASES_ONE_TIME_UPDATE"

  /** Where the route sends a verified, parsed request. */
  datatype Route = ComplianceAck | Uninstalled | SubscriptionUpdate | OneTimePurchaseUpdate | Unhandled

  /** The three `if (topic === ...)` tests, then the `switch (topic)`.
      Matching is exact string equality; an absent header matches nothing. */
  function RouteOf(topic: Option<string>): (r: Route)
    ensures r == ComplianceAck <==>
              topic == Some(DataRequestTopic) || topic == Some(CustomersRedactTopic) || topic == Some(ShopRedactTopic)
    ensures r == Uninstalled <==> topic == Some(AppUninstalled)
    ensures r == SubscriptionUpdate <==> topic == Some(SubscriptionsUpdate)
    ensures r == OneTimePurchaseUpdate <==> topic == Some(PurchasesOneTimeUpdate)
    ensures topic.None? ==> r == Unhandled
  {
    if topic == Some(DataRequestTopic) then ComplianceAck
    else if topic == Some(CustomersRedactTopic) then ComplianceAck
    else if topic == Some(ShopRedactTopic) then ComplianceAck
    else if topic == Some(AppUninstalled) then Uninstalled
    else if topic == Some(SubscriptionsUpdate) then SubscriptionUpdate
    else if topic == Some(PurchasesOneTimeUpdate) then OneTimePurchaseUpdate
    else Unhandled
  }

  /** `hash !== hmac` is false: the digest of the raw text equals the header. */
  predicate Authentic(sign: Signer, secret: string, req: Request) {
    Some(sign(secret, req.rawBody)) == req.hmac
  }

  /** `deleteMany({ where: { shop } })` on the session table: every session of
      the header's shop goes, every other one stays, in order. An absent
      header equals no stored shop name, so nothing goes. */
  function DeleteSessions(sessions: seq<Session>, shop: Option<string>): (r: seq<Session>)
    ensures forall x :: x in r <==> x in sessions && Some(x.shop) != shop
    ensures shop.None? ==> r == sessions
  {
    if shop.None? then
      FilterAll(sessions, (x: Session) => Some(x.shop) != shop);
      Filter(sessions, (x: Session) => Some(x.shop) != shop)
    else Filter(sessions, (x: Session) => Some(x.shop) != shop)
  }

  /** The `APP_UNINSTALLED` case, with the deletion the source intends. */
  function Uninstall(s: Store, session: Option<Session>, shop: Option<string>): (t: Store)
    ensures t.(sessions := s.sessions) == s
    ensures session.None? ==> t == s
    ensures session.Some? ==> forall x :: x in t.sessions <==> x in s.sessions && Some(x.shop) != shop
  {
    if session.Some? then s.(sessions := DeleteSessions(s.sessions, shop)) else s
  }

  /** The route action. `session` is what `authenticate.webhook` returns. */
  function Handle(sign: Signer, secret: string, req: Request, session: Option<Session>,
                  parse: string -> Parsed, s: Store): (r: Outcome)
    // 401 exactly on a mismatch (an absent header included), and then nothing
    // changes.
    ensures r.reply == Unauthorized <==> !Authentic(sign, secret, req)
    ensures !Authentic(sign, secret, req) ==> r == Outcome(s, Unauthorized)
    // A verified body that does not parse makes `JSON.parse` throw.
    ensures Authentic(sign, secret, req) && parse(req.rawBody) == Unparseable ==> r == Outcome(s, Throws)
    // APP_SUBSCRIPTIONS_UPDATE reads `body.app_subscription`, which throws
    // when the body is `null`.
    ensures Authentic(sign, secret, req) && parse(req.rawBody) == Null && RouteOf(req.topic) == SubscriptionUpdate ==>
              r == Outcome(s, Throws)
    // Every other verified request, whatever its topic, gets 200.
    ensures Authentic(sign, secret, req) ==>
              (r.reply == Ok <==> parse(req.rawBody) != Unparseable
                                  && !(parse(req.rawBody) == Null && RouteOf(req.topic) == SubscriptionUpdate))
    // Only sessions can change, and only on APP_UNINSTALLED with a session.
    ensures r.store.(sessions := s.sessions) == s
    ensures RouteOf(req.topic) != Uninstalled || session.None? ==> r.store == s
    ensures (Authentic(sign, secret, req) && parse(req.rawBody) != Unparseable
             && RouteOf(req.topic) == Uninstalled && session.Some?) ==>
              forall x :: x in r.store.sessions <==> x in s.sessions && Some(x.shop) != req.shop
  {
    if !Authentic(sign, secret, req) then Outcome(s, Unauthorized)
    else if parse(req.rawBody) == Unparseable then Outcome(s, Throws)
    else
      match RouteOf(req.topic)
      case ComplianceAck => Outcome(s, Ok)
      case Uninstalled => Outcome(Uninstall(s, session, req.shop), Ok)
      case SubscriptionUpdate =>
        if parse(req.rawBody) == Null then Outcome(s, Throws) else Outcome(s, Ok)
      case OneTimePurchaseUpdate => Outcome(s, Ok)
      case Unhandled => Outcome(s, Ok)
  }

  /** The route's gate and `verifyShopifyWebhook` decide alike. */
  lemma GateAgreesWithVerifier<Body>(sign: Signer, secret: string, req: Request, body: Body)
    ensures Authentic(sign, secret, req)
        <==> VerifyWebhook(sign, secret, req.topic, req.hmac, body, req.rawBody)
  {
  }

  /** The gate reads the raw text only: requests that differ in topic, shop
      or in how their body would parse are accepted or refused alike. */
  lemma GateReadsRawBodyOnly(sign: Signer, secret: string, r1: Request, r2: Request,
                             session1: Option<Session>, session2: Option<Session>,
                             parse1: string -> Parsed, parse2: string -> Parsed, s: Store)
    requires r1.rawBody == r2.rawBody && r1.hmac == r2.hmac
    ensures (Handle(sign, secret, r1, session1, parse1, s).reply == Unauthorized)
        <==> (Handle(sign, secret, r2, session2, parse2, s).reply == Unauthorized)
  {
  }

  /** Nothing but the raw text and the header is consulted before the digest
      check: a request that fails it has one outcome whatever its topic, its
      shop, the session and what its body would parse to. So the body is
      parsed only after verification. */
  lemma UnverifiedReadsNothingElse(sign: Signer, secret: string, r1: Request, r2: Request,
                                   session1: Option<Session>, session2: Option<Session>,
                                   parse1: string -> Parsed, parse2: string -> Parsed, s: Store)
    requires r1.rawBody == r2.rawBody && r1.hmac == r2.hmac
    requires !Authentic(sign, secret, r1)
    ensures Handle(sign, secret, r1, session1, parse1, s) == Handle(sign, secret, r2, session2, parse2, s)
  {
  }

  /** Deleting a shop's sessions twice leaves what deleting them once does. */
  lemma UninstallIdempotent(s: Store, session: Option<Session>, shop: Option<string>)
    ensures Uninstall(Uninstall(s, session, shop), session, shop) == Uninstall(s, session, shop)
  {
    if session.Some? && shop.Some? {
      FilterFilter(s.sessions, (x: Session) => Some(x.shop) != shop, (x: Session) => Some(x.shop) != shop);
    }
  }

  /** The compliance topics in the form their own routes compare
      (`CUSTOMERS_REDACT`, ...) are not the forms this route compares, and
      `app/uninstalled` is not `APP_UNINSTALLED`: all fall to the default. */
  lemma TopicFormsDoNotMix()
    ensures RouteOf(Some("CUSTOMERS_DATA_REQUEST")) == Unhandled
    ensures RouteOf(Some("CUSTOMERS_REDACT")) == Unhandled
    ensures RouteOf(Some("SHOP_REDACT")) == Unhandled
    ensures RouteOf(Some("app/uninstalled")) == Unhandled
  {
  }

  // --- The APP_UNINSTALLED case as written ---------------------------------
  // webhooks.jsx calls `db.session.deleteMany`, but the module never imports
  // or declares `db`: evaluating `db` throws a ReferenceError, which escapes
  // the action. `Handle` above models the deletion the code evidently means;
  // `HandleAsWritten` models what the code does.

  /** The route action exactly as written: identical to `Handle` except that a
      verified APP_UNINSTALLED with a session throws before deleting anything. */
  function HandleAsWritten(sign: Signer, secret: string, req: Request, session: Option<Session>,
                           parse: string -> Parsed, s: Store): (r: Outcome)
    ensures (Authentic(sign, secret, req) && parse(req.rawBody) != Unparseable
             && RouteOf(req.topic) == Uninstalled && session.Some?) ==> r == Outcome(s, Throws)
    ensures !(Authentic(sign, secret, req) && parse(req.rawBody) != Unparseable
              && RouteOf(req.topic) == Uninstalled && session.Some?) ==>
              r == Handle(sign, secret, req, session, parse, s)
  {
    if Authentic(sign, secret, req) && parse(req.rawBody) != Unparseable
       && RouteOf(req.topic) == Uninstalled && session.Some?
    then Outcome(s, Throws)
    else Handle(sign, secret, req, session, parse, s)
  }

  /** A concrete delivery on which the two differ: the uninstall of shop
      `a.myshopify.com` with its session stored. As written the route throws
      and the session survives; as intended it answers 200 and the session
      is gone. (The signer here is a stand-in; any signer behaves alike.) */
  lemma UninstallAsWrittenThrows()
    ensures var sign: Signer := (k: string, m: string) => k + m;
            var sess := Session("offline_a", "a.myshopify.com");
            var s := Store([sess], [], [], [], [], []);
            var req := Request("{}", Some("k{}"), Some(AppUninstalled), Some("a.myshopify.com"));
            var written := HandleAsWritten(sign, "k", req, Some(sess), (t: string) => Value, s);
            var intended := Handle(sign, "k", req, Some(sess), (t: string) => Value, s);
            && written.reply == Throws && sess in written.store.sessions
            && intended.reply == Ok && sess !in intended.store.sessions
  {
    var sign: Signer := (k: string, m: string) => k + m;
    var sess := Session("offline_a", "a.myshopify.com");
    var s := Store([sess], [], [], [], [], []);
    var req := Request("{}", Some("k{}"), Some(AppUninstalled), Some("a.myshopify.com"));
    assert sign("k", "{}") == "k{}";
    assert Authentic(sign, "k", req);
    assert RouteOf(req.topic) == Uninstalled;
  }
}
