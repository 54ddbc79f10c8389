/** The abstract record store the webhook handlers read and write, and the
    replies they give. Each table is an ordered sequence of rows so that
    `findMany` results keep an order; the Prisma client itself is not modelled,
    only the filter semantics of its calls. */
module Records {
  import opened Wrappers
  import opened Seqs

  /** Numeric identifiers of shops, customers and rows. */
  type Id = int

  datatype Session = Session(id: string, shop: string)
  datatype Shop = Shop(id: Id, domain: string)
  /** `customerId` is the platform's customer id; `id` is the row id. */
  datatype Customer = Customer(id: Id, shopId: Id, customerId: Id)
  /** `customer` is the row id of the owning customer (the `orders` relation). */
  datatype Order = Order(id: Id, shopId: Id, customer: Id)
  /** `customer` is the row id of the owning customer (the `settings` relation). */
  datatype ShopSetting = ShopSetting(id: Id, shopId: Id, customer: Id)

  /** The fields the compliance handlers destructure from a delivery's payload. */
  datatype Payload = Payload(customerIds: seq<Id>, shopId: Id, shopDomain: string)

  /** The `where` of the customer compliance handlers:
      `{ shopId: shop_id, customerId: { in: customer_ids } }`. */
  predicate Selects(p: Payload, c: Customer) {
    c.shopId == p.shopId && c.customerId in p.customerIds
  }

  /** `prisma.customer.findMany` with that `where`, rows in table order. */
  function FindCustomers(customers: seq<Customer>, p: Payload): (r: seq<Customer>)
    ensures forall c :: c in r <==> c in customers && Selects(p, c)
  {
    Filter(customers, c => Selects(p, c))
  }

  /** A shop row with its related rows, as `findUnique` with `include` returns it. */
  datatype ShopData = ShopData(shop: Shop, customers: seq<Customer>, orders: seq<Order>, settings: seq<ShopSetting>)

  /** The `formattedData` export of a customer data request. */
  datatype Export = Export(customerId: Option<Id>, shopId: Id, shopDomain: string,
                           customers: seq<Customer>, orders: seq<Order>, settings: seq<seq<ShopSetting>>)

  /** What a log entry's `payload` column holds, before serialisation. */
  datatype LogPayload =
    | Delivered(payload: Payload)
    | CustomersToDelete(customerIds: seq<Id>, dataToDelete: seq<Customer>)
    | CustomersDeleted(customerIds: seq<Id>)
    | ShopToDelete(shopId: Id, shopData: Option<ShopData>)
    | ShopDeleted(shopId: Id)
    | Exported(data: Export)
    | Error(message: string)

  datatype LogEntry = LogEntry(shop: string, topic: string, payload: LogPayload, status: string)

  datatype Store = Store(sessions: seq<Session>, shops: seq<Shop>, customers: seq<Customer>,
                         orders: seq<Order>, settings: seq<ShopSetting>, log: seq<LogEntry>)

  /** An HTTP status, or an exception that escapes the route handler
      (the web framework then answers 500). */
  datatype Reply = Respond(status: int) | Throws

  const Ok: Reply := Respond(200)
  const Unauthorized: Reply := Respond(401)

  datatype Handled = Handled(store: Store, reply: Reply)

  /** The `status` column of each entry, in order. */
  function Statuses(log: seq<LogEntry>): (r: seq<string>)
    ensures |r| == |log|
    ensures forall i :: 0 <= i < |log| ==> r[i] == log[i].status
  {
    seq(|log|, i requires 0 <= i < |log| => log[i].status)
  }

  /** Every table other than the log is the same in `s` and `t`. */
  predicate SameRecords(s: Store, t: Store) {
    s.(log := t.log) == t
  }

  /** `t` holds the log of `s` followed by further entries. */
  predicate LogExtends(s: Store, t: Store) {
    |s.log| <= |t.log| && t.log[..|s.log|] == s.log
  }

  /** The entries `t` appended to the log of `s`. */
  function Appended(s: Store, t: Store): seq<LogEntry>
    requires LogExtends(s, t)
  {
    t.log[|s.log|..]
  }

  /** Entries appended over two stages are those of the first stage
      followed by those of the second. */
  lemma AppendedChain(s: Store, t: Store, u: Store)
    requires LogExtends(s, t) && LogExtends(t, u)
    ensures LogExtends(s, u)
    ensures Appended(s, u) == Appended(s, t) + Appended(t, u)
    ensures Statuses(Appended(s, u)) == Statuses(Appended(s, t)) + Statuses(Appended(t, u))
  {
  }
}
