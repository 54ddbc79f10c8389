/** app/routes/webhooks.customers.redact.jsx: erase one shop's listed
    customers. Steps, each of which may throw:
      0 log "received"   1 findMany   2 log "processing"
      3 deleteMany       4 log "completed" */
module CustomersRedact {
  import opened Wrappers
  import opened Seqs
  import opened Records
  import opened Compliance

  const Topic: string := "CUSTOMERS_REDACT"

  /** `prisma.customer.deleteMany` with the redaction filter. */
  function DeleteCustomers(customers: seq<Customer>, p: Payload): (r: seq<Customer>)
    ensures forall c :: c in r <==> c in customers && !Selects(p, c)
  {
    Filter(customers, c => !Selects(p, c))
  }

  /** The statuses a run that does not fail logs, in order. */
  const CompleteRun: seq<string> := ["received", "processing", "completed"]

  /** The route action after `authenticate.webhook` has produced `topic`, `shop`
      and `payload`. */
  function Handle(s: Store, topic: string, shop: string, p: Payload, f: Faults): (r: Handled)
    // Any topic but CUSTOMERS_REDACT: nothing is written, 200.
    ensures topic != Topic ==> r == Handled(s, Ok)
    // Always 200, unless the error log write in the catch block itself throws.
    ensures r.reply == Ok || r.reply == Throws
    ensures r.reply == Throws <==> topic == Topic && FailsBefore(f, 5) && f.catchLogFails
    // Only customers may lose rows; the log only grows.
    ensures r.store.sessions == s.sessions && r.store.shops == s.shops
    ensures r.store.orders == s.orders && r.store.settings == s.settings
    ensures LogExtends(s, r.store)
  {
    if topic != Topic then Handled(s, Ok)
    else if FailsAt(f, 0) then Recover(s, shop, topic, f, f.message)
    else
      var s1 := Log(s, shop, topic, Delivered(p), "received");
      if FailsAt(f, 1) then Recover(s1, shop, topic, f, f.message)
      else
        var found := FindCustomers(s1.customers, p);
        if FailsAt(f, 2) then Recover(s1, shop, topic, f, f.message)
        else
          var s2 := Log(s1, shop, topic, CustomersToDelete(p.customerIds, found), "processing");
          if FailsAt(f, 3) then Recover(s2, shop, topic, f, f.message)
          else
            var s3 := s2.(customers := DeleteCustomers(s2.customers, p));
            if FailsAt(f, 4) then Recover(s3, shop, topic, f, f.message)
            else Handled(Log(s3, shop, topic, CustomersDeleted(p.customerIds), "completed"), Ok)
  }

  /** Which customers are gone is fixed by how far the run got: nothing is
      deleted unless `deleteMany` (step 3) ran, and once it has, exactly the
      targeted customers stay deleted, even when the "completed" log write
      after it fails (there is no rollback). */
  lemma DeletesTargetedOrNothing(s: Store, topic: string, shop: string, p: Payload, f: Faults)
    ensures var r := Handle(s, topic, shop, p, f);
            topic != Topic || FailsBefore(f, 4) ==> r.store.customers == s.customers
    ensures var r := Handle(s, topic, shop, p, f);
            topic == Topic && !FailsBefore(f, 4) ==>
              forall c :: c in r.store.customers <==> c in s.customers && !Selects(p, c)
  {
  }

  /** A run that does not fail deletes the targeted customers, logs
      "received", "processing", "completed", and the records logged as
      data_to_delete are exactly those it deleted. */
  lemma CompleteRunErases(s: Store, shop: string, p: Payload, f: Faults)
    requires !FailsBefore(f, 5)
    ensures var r := Handle(s, Topic, shop, p, f);
            && (forall c :: c in r.store.customers <==> c in s.customers && !Selects(p, c))
            && Statuses(Appended(s, r.store)) == CompleteRun
            && Appended(s, r.store)[1].payload.CustomersToDelete?
            && var logged := Appended(s, r.store)[1].payload.dataToDelete;
               forall c :: c in logged <==> c in s.customers && c !in r.store.customers
  {
  }

  /** A run that fails at some step appends one "error" entry after the
      entries logged before the failure. */
  lemma FailedRunLogsError(s: Store, shop: string, p: Payload, f: Faults)
    requires FailsBefore(f, 5) && !f.catchLogFails
    ensures var r := Handle(s, Topic, shop, p, f);
            var st := Statuses(Appended(s, r.store));
            && |st| >= 1 && st[|st| - 1] == "error"
            && |st| - 1 < |CompleteRun| && IsPrefix(st[..|st| - 1], CompleteRun)
  {
    var r := Handle(s, Topic, shop, p, f);
    var st := Statuses(Appended(s, r.store));
    var k := f.step.value;
    if k == 0 {
      assert st == ["error"];
    } else if k <= 2 {
      assert st == ["received", "error"];
    } else {
      assert st == ["received", "processing", "error"];
    }
  }

  /** A second delivery of the same payload deletes no further records. */
  lemma RedeliveryDeletesNothing(s: Store, shop: string, p: Payload)
    ensures var once := Handle(s, Topic, shop, p, NoFaults).store;
            var twice := Handle(once, Topic, shop, p, NoFaults).store;
            twice.(log := once.log) == once
  {
    var once := Handle(s, Topic, shop, p, NoFaults).store;
    FilterAll(once.customers, c => !Selects(p, c));
  }
}
