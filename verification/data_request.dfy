/** app/routes/webhooks.customers.data_request.jsx: gather what is stored
    about the listed customers and log it. Steps, each of which may throw:
      0 log "received"   1 findMany (with orders and settings)   2 log "processed"
    Nothing but the log is ever written. */
module DataRequest {
  import opened Wrappers
  import opened Seqs
  import opened Records
  import opened Compliance

  const Topic: string := "CUSTOMERS_DATA_REQUEST"

  const CompleteRun: seq<string> := ["received", "processed"]

  /** The customer's `orders` relation. */
  function OrdersOf(orders: seq<Order>, c: Customer): (r: seq<Order>)
    ensures forall o :: o in r <==> o in orders && o.customer == c.id
  {
    Filter(orders, (o: Order) => o.customer == c.id)
  }

  /** The customer's `settings` relation. */
  function SettingsOf(settings: seq<ShopSetting>, c: Customer): (r: seq<ShopSetting>)
    ensures forall t :: t in r <==> t in settings && t.customer == c.id
  {
    Filter(settings, (t: ShopSetting) => t.customer == c.id)
  }

  /** `customerData.flatMap(c => c.orders)`. */
  function FlatOrders(orders: seq<Order>, cs: seq<Customer>): (r: seq<Order>)
    ensures forall o :: o in r <==> exists c :: c in cs && o in OrdersOf(orders, c)
  {
    if cs == [] then [] else OrdersOf(orders, cs[0]) + FlatOrders(orders, cs[1..])
  }

  /** `customerData.map(c => c.settings)`. */
  function SettingsLists(settings: seq<ShopSetting>, cs: seq<Customer>): (r: seq<seq<ShopSetting>>)
    ensures |r| == |cs|
    ensures forall i :: 0 <= i < |cs| ==> r[i] == SettingsOf(settings, cs[i])
  {
    if cs == [] then [] else [SettingsOf(settings, cs[0])] + SettingsLists(settings, cs[1..])
  }

  /** `customer_ids[0]`, which is `undefined` (and then left out of the
      logged JSON) when the list is empty. */
  function FirstId(ids: seq<Id>): (r: Option<Id>)
    ensures r.Some? <==> |ids| > 0
    ensures r.Some? ==> r.value == ids[0]
  {
    if ids == [] then None else Some(ids[0])
  }

  /** `formattedData`: the requested customers of the shop, their orders one
      customer after another, and one settings entry per customer. */
  function Format(s: Store, p: Payload): (e: Export)
    ensures forall c :: c in e.customers <==> c in s.customers && Selects(p, c)
    ensures forall o :: o in e.orders <==> exists c :: c in e.customers && o in OrdersOf(s.orders, c)
    ensures |e.settings| == |e.customers|
    ensures forall i :: 0 <= i < |e.customers| ==> e.settings[i] == SettingsOf(s.settings, e.customers[i])
    ensures e.customerId == FirstId(p.customerIds)
    ensures e.shopId == p.shopId && e.shopDomain == p.shopDomain
  {
    var found := FindCustomers(s.customers, p);
    Export(FirstId(p.customerIds), p.shopId, p.shopDomain,
           found, FlatOrders(s.orders, found), SettingsLists(s.settings, found))
  }

  /** The route action after `authenticate.webhook` has produced `topic`, `shop`
      and `payload`. */
  function Handle(s: Store, topic: string, shop: string, p: Payload, f: Faults): (r: Handled)
    ensures topic != Topic ==> r == Handled(s, Ok)
    ensures SameRecords(s, r.store) && LogExtends(s, r.store)
    ensures r.reply == Ok || r.reply == Throws
    ensures r.reply == Throws <==> topic == Topic && FailsBefore(f, 3) && f.catchLogFails
    ensures topic == Topic && !FailsBefore(f, 3) ==>
              && Statuses(Appended(s, r.store)) == CompleteRun
              && Appended(s, r.store)[1].payload == Exported(Format(s, p))
  {
    if topic != Topic then Handled(s, Ok)
    else if FailsAt(f, 0) then Recover(s, shop, topic, f, f.message)
    else
      var s1 := Log(s, shop, topic, Delivered(p), "received");
      if FailsAt(f, 1) then Recover(s1, shop, topic, f, f.message)
      else
        var data := Format(s1, p);
        if FailsAt(f, 2) then Recover(s1, shop, topic, f, f.message)
        else Handled(Log(s1, shop, topic, Exported(data), "processed"), Ok)
  }

  /** A failure appends one "error" entry, after "received" when that was
      already written. */
  lemma FailedRunLogsError(s: Store, shop: string, p: Payload, f: Faults)
    requires FailsBefore(f, 3) && !f.catchLogFails
    ensures var r := Handle(s, Topic, shop, p, f);
            Statuses(Appended(s, r.store))
            == (if f.step == Some(0) then ["error"] else ["received", "error"])
  {
  }

  /** The exported orders are grouped by customer, in customer order:
      flatMap distributes over concatenation of the customer list. */
  lemma {:induction false} FlatOrdersAppend(orders: seq<Order>, a: seq<Customer>, b: seq<Customer>)
    ensures FlatOrders(orders, a + b) == FlatOrders(orders, a) + FlatOrders(orders, b)
  {
    if a == [] {
      assert a + b == b;
    } else {
      var head := OrdersOf(orders, a[0]);
      assert (a + b)[0] == a[0] && (a + b)[1..] == a[1..] + b;
      assert FlatOrders(orders, a + b) == head + FlatOrders(orders, a[1..] + b);
      FlatOrdersAppend(orders, a[1..], b);
      assert head + (FlatOrders(orders, a[1..]) + FlatOrders(orders, b))
          == (head + FlatOrders(orders, a[1..])) + FlatOrders(orders, b);
    }
  }
}
