/** app/routes/webhooks.shop.redact.jsx: erase everything stored for a shop.
    Steps, each of which may throw:
      0 log "received"    1 findUnique          2 log "processing"
      3 delete customers  4 delete orders       5 delete settings
      6 delete the shop   7 log "completed"
    Step 6 also throws by itself when no shop row has the id, as
    `prisma.shop.delete` does for a missing record. */
module ShopRedact {
  import opened Wrappers
  import opened Seqs
  import opened Records
  import opened Compliance

  const Topic: string := "SHOP_REDACT"

  /** An abstract stand-in for the message of the error `delete` throws for a
      missing record: the real text carries the call's context and varies
      between Prisma versions, so only its being one fixed value matters. */
  const RecordNotFound: string := "Record to delete does not exist."

  const CompleteRun: seq<string> := ["received", "processing", "completed"]

  /** Number of steps; a failure at a step numbered below it aborts the run. */
  const Steps: nat := 8

  predicate HasShop(s: Store, id: Id) {
    exists x :: x in s.shops && x.id == id
  }

  /** `prisma.shop.findUnique` with its customers, orders and settings included. */
  function FindShop(s: Store, id: Id): (r: Option<ShopData>)
    ensures r.Some? <==> HasShop(s, id)
    ensures r.Some? ==> r.value.shop in s.shops && r.value.shop.id == id
    ensures r.Some? ==> forall c :: c in r.value.customers <==> c in s.customers && c.shopId == id
    ensures r.Some? ==> forall o :: o in r.value.orders <==> o in s.orders && o.shopId == id
    ensures r.Some? ==> forall t :: t in r.value.settings <==> t in s.settings && t.shopId == id
  {
    var matching := Filter(s.shops, (x: Shop) => x.id == id);
    if matching == [] then None
    else
      assert matching[0] in matching;
      Some(ShopData(matching[0],
                    Filter(s.customers, (c: Customer) => c.shopId == id),
                    Filter(s.orders, (o: Order) => o.shopId == id),
                    Filter(s.settings, (t: ShopSetting) => t.shopId == id)))
  }

  /** Step `k` ran to completion: no step up to and including it threw. */
  predicate Passed(f: Faults, k: nat) {
    !(f.step.Some? && f.step.value <= k)
  }

  /** Each of the four deletions has happened exactly when its step passed
      (the shop row only when it existed), in the order customers, orders,
      settings, shop row; a deletion removes exactly the rows of shop `id`. */
  ghost predicate DeletedUpTo(s: Store, t: Store, id: Id, f: Faults) {
    && (Passed(f, 3) ==> forall c :: c in t.customers <==> c in s.customers && c.shopId != id)
    && (!Passed(f, 3) ==> t.customers == s.customers)
    && (Passed(f, 4) ==> forall o :: o in t.orders <==> o in s.orders && o.shopId != id)
    && (!Passed(f, 4) ==> t.orders == s.orders)
    && (Passed(f, 5) ==> forall x :: x in t.settings <==> x in s.settings && x.shopId != id)
    && (!Passed(f, 5) ==> t.settings == s.settings)
    && (Passed(f, 6) && HasShop(s, id) ==> forall x :: x in t.shops <==> x in s.shops && x.id != id)
    && (!(Passed(f, 6) && HasShop(s, id)) ==> t.shops == s.shops)
  }

  /** Steps 6 and 7: delete the shop row, which throws when there is none,
      then log "completed". */
  function DropShop(s: Store, shop: string, p: Payload, f: Faults): (r: Handled)
    requires !FailsBefore(f, 6)
    ensures r.reply == Ok || r.reply == Throws
    ensures r.store.sessions == s.sessions && r.store.customers == s.customers
    ensures r.store.orders == s.orders && r.store.settings == s.settings
    ensures LogExtends(s, r.store)
    ensures Passed(f, 6) && HasShop(s, p.shopId) ==> forall x :: x in r.store.shops <==> x in s.shops && x.id != p.shopId
    ensures !(Passed(f, 6) && HasShop(s, p.shopId)) ==> r.store.shops == s.shops
    ensures Passed(f, 7) && HasShop(s, p.shopId) ==>
              r.reply == Ok && Statuses(Appended(s, r.store)) == ["completed"]
    ensures !(Passed(f, 7) && HasShop(s, p.shopId)) ==>
              && (r.reply == Ok <==> !f.catchLogFails)
              && (r.reply == Ok ==> Statuses(Appended(s, r.store)) == ["error"])
    ensures Passed(f, 6) && !HasShop(s, p.shopId) && !f.catchLogFails ==>
              Appended(s, r.store)[0].payload == Error(RecordNotFound)
  {
    if FailsAt(f, 6) then Recover(s, shop, Topic, f, f.message)
    else if !HasShop(s, p.shopId) then Recover(s, shop, Topic, f, RecordNotFound)
    else
      var s6 := s.(shops := Filter(s.shops, (x: Shop) => x.id != p.shopId));
      if FailsAt(f, 7) then Recover(s6, shop, Topic, f, f.message)
      else Handled(Log(s6, shop, Topic, ShopDeleted(p.shopId), "completed"), Ok)
  }

  /** Steps 3 to 7: delete the shop's customers, orders and settings, then
      the shop row, then log "completed". A failure leaves the deletions
      already done in place (there is no rollback). */
  function EraseShop(s: Store, shop: string, p: Payload, f: Faults): (r: Handled)
    requires !FailsBefore(f, 3)
    ensures r.reply == Ok || r.reply == Throws
    ensures r.store.sessions == s.sessions
    ensures LogExtends(s, r.store)
    ensures DeletedUpTo(s, r.store, p.shopId, f)
    ensures Passed(f, 7) && HasShop(s, p.shopId) ==>
              r.reply == Ok && Statuses(Appended(s, r.store)) == ["completed"]
    ensures !(Passed(f, 7) && HasShop(s, p.shopId)) ==>
              && (r.reply == Ok <==> !f.catchLogFails)
              && (r.reply == Ok ==> Statuses(Appended(s, r.store)) == ["error"])
    ensures Passed(f, 6) && !HasShop(s, p.shopId) && !f.catchLogFails ==>
              Appended(s, r.store)[0].payload == Error(RecordNotFound)
  {
    if FailsAt(f, 3) then Recover(s, shop, Topic, f, f.message)
    else
      var s3 := s.(customers := Filter(s.customers, (c: Customer) => c.shopId != p.shopId));
      if FailsAt(f, 4) then Recover(s3, shop, Topic, f, f.message)
      else
        var s4 := s3.(orders := Filter(s3.orders, (o: Order) => o.shopId != p.shopId));
        if FailsAt(f, 5) then Recover(s4, shop, Topic, f, f.message)
        else
          var s5 := s4.(settings := Filter(s4.settings, (t: ShopSetting) => t.shopId != p.shopId));
          DropShop(s5, shop, p, f)
  }

  /** Steps 0 to 2 when one of them throws: "received" is logged unless
      the first step failed, and the `catch` block runs. */
  function EarlyFailure(s: Store, shop: string, p: Payload, f: Faults): (r: Handled)
    requires FailsBefore(f, 3)
    ensures SameRecords(s, r.store) && LogExtends(s, r.store)
    ensures r.reply == Ok <==> !f.catchLogFails
    ensures r.reply == Ok ==>
              Statuses(Appended(s, r.store)) == (if f.step == Some(0) then ["error"] else ["received", "error"])
  {
    if FailsAt(f, 0) then Recover(s, shop, Topic, f, f.message)
    else
      var s1 := Log(s, shop, Topic, Delivered(p), "received");
      var r := Recover(s1, shop, Topic, f, f.message);
      AppendedChain(s, s1, r.store);
      r
  }

  /** The route action after `authenticate.webhook` has produced `topic`, `shop`
      and `payload`: steps 0 to 2, then the deletions. */
  function Handle(s: Store, topic: string, shop: string, p: Payload, f: Faults): (r: Handled)
    ensures topic != Topic ==> r == Handled(s, Ok)
    ensures r.reply == Ok || r.reply == Throws
    ensures r.store.sessions == s.sessions
    ensures LogExtends(s, r.store)
    ensures topic == Topic ==> DeletedUpTo(s, r.store, p.shopId, f)
  {
    if topic != Topic then Handled(s, Ok)
    else if FailsBefore(f, 3) then EarlyFailure(s, shop, p, f)
    else
      var t := Prepared(s, shop, p);
      var r := EraseShop(t, shop, p, f);
      assert HasShop(t, p.shopId) == HasShop(s, p.shopId);
      r
  }

  /** The rows of the store that belong to shop `id`: all gone from `t`, and
      every other row of `s` kept. */
  ghost predicate ShopErased(s: Store, t: Store, id: Id) {
    && (forall c :: c in t.customers <==> c in s.customers && c.shopId != id)
    && (forall o :: o in t.orders <==> o in s.orders && o.shopId != id)
    && (forall x :: x in t.settings <==> x in s.settings && x.shopId != id)
    && (forall x :: x in t.shops <==> x in s.shops && x.id != id)
  }

  /** The store after steps 0 to 2, where the deletions begin. */
  function Prepared(s: Store, shop: string, p: Payload): (t: Store)
    ensures SameRecords(s, t) && LogExtends(s, t)
    ensures Statuses(Appended(s, t)) == ["received", "processing"]
  {
    var s1 := Log(s, shop, Topic, Delivered(p), "received");
    var t := Log(s1, shop, Topic, ShopToDelete(p.shopId, FindShop(s1, p.shopId)), "processing");
    AppendedChain(s, s1, t);
    t
  }

  /** A run that does not fail, on a shop that exists, erases the shop and
      all its rows, keeps every other shop's rows, and logs "received",
      "processing", "completed". */
  lemma CompleteRunErases(s: Store, shop: string, p: Payload, f: Faults)
    requires !FailsBefore(f, Steps) && HasShop(s, p.shopId)
    ensures var r := Handle(s, Topic, shop, p, f);
            && r.reply == Ok
            && ShopErased(s, r.store, p.shopId)
            && Statuses(Appended(s, r.store)) == CompleteRun
  {
    var s2 := Prepared(s, shop, p);
    var r := EraseShop(s2, shop, p, f);
    assert HasShop(s2, p.shopId);
    AppendedChain(s, s2, r.store);
  }

  /** Whatever fails, the run answers 200 once the "error" entry is written,
      and that entry is the last one appended, after those logged before the
      failure. */
  lemma FailedRunLogsError(s: Store, shop: string, p: Payload, f: Faults)
    requires (FailsBefore(f, Steps) || !HasShop(s, p.shopId)) && !f.catchLogFails
    ensures var r := Handle(s, Topic, shop, p, f);
            var st := Statuses(Appended(s, r.store));
            && r.reply == Ok
            && |st| >= 1 && st[|st| - 1] == "error"
            && |st| - 1 < |CompleteRun| && IsPrefix(st[..|st| - 1], CompleteRun)
  {
    var r := Handle(s, Topic, shop, p, f);
    if !FailsBefore(f, 3) {
      var s2 := Prepared(s, shop, p);
      assert HasShop(s2, p.shopId) == HasShop(s, p.shopId);
      AppendedChain(s, s2, r.store);
      assert Statuses(Appended(s, r.store)) == ["received", "processing", "error"];
    }
  }

  /** No row of the store belongs to shop `id`. */
  ghost predicate NothingOf(s: Store, id: Id) {
    && !HasShop(s, id)
    && (forall c :: c in s.customers ==> c.shopId != id)
    && (forall o :: o in s.orders ==> o.shopId != id)
    && (forall x :: x in s.settings ==> x.shopId != id)
  }

  /** The deletion steps on a store holding nothing of the shop: each
      `deleteMany` removes nothing and `delete` throws. */
  lemma EraseAbsentShop(s: Store, shop: string, p: Payload)
    requires NothingOf(s, p.shopId)
    ensures EraseShop(s, shop, p, NoFaults)
         == Handled(Log(s, shop, Topic, Error(RecordNotFound), "error"), Ok)
  {
    FilterAll(s.customers, (c: Customer) => c.shopId != p.shopId);
    FilterAll(s.orders, (o: Order) => o.shopId != p.shopId);
    FilterAll(s.settings, (t: ShopSetting) => t.shopId != p.shopId);
  }

  /** On a store holding nothing of the shop, a run deletes nothing and ends
      with the record-not-found "error" entry, still answering 200. */
  lemma AbsentShopLogsError(s: Store, shop: string, p: Payload)
    requires NothingOf(s, p.shopId)
    ensures var r := Handle(s, Topic, shop, p, NoFaults);
            && r.reply == Ok
            && SameRecords(s, r.store)
            && Statuses(Appended(s, r.store)) == ["received", "processing", "error"]
            && Appended(s, r.store)[2].payload == Error(RecordNotFound)
  {
    var s2 := Prepared(s, shop, p);
    EraseAbsentShop(s2, shop, p);
    var r := EraseShop(s2, shop, p, NoFaults);
    AppendedChain(s, s2, r.store);
    assert Appended(s, r.store)[2] == Appended(s2, r.store)[0];
  }

  /** A second delivery after a complete run deletes nothing more, but the
      shop row is already gone, so `delete` throws and the run ends with an
      "error" entry instead of "completed". */
  lemma RedeliveryLogsError(s: Store, shop: string, p: Payload)
    requires HasShop(s, p.shopId)
    ensures var once := Handle(s, Topic, shop, p, NoFaults);
            var twice := Handle(once.store, Topic, shop, p, NoFaults);
            && twice.reply == Ok
            && SameRecords(once.store, twice.store)
            && Statuses(Appended(once.store, twice.store)) == ["received", "processing", "error"]
            && Appended(once.store, twice.store)[2].payload == Error(RecordNotFound)
  {
    CompleteRunErases(s, shop, p, NoFaults);
    AbsentShopLogsError(Handle(s, Topic, shop, p, NoFaults).store, shop, p);
  }
}
