/**
 * The run itself, `main` (main.py:34-151): build the shipping map, load
 * and group the orders, resolve the run's SKUs against the catalog, give
 * every order its dropshipper's customer record, and process each group's
 * orders in batches of 50, group by group, until the end or the first
 * exception.
 */
module Driver {
  import opened Wrappers
  import opened Records
  import opened Dicts
  import opened Batching
  import SkuCatalog
  import opened ShippingCosts
  import opened OrderLoading
  import opened BatchController

  /** `batches_creator(orders, 50)`. */
  const OrderBatchSize: nat := 50

  /**
   * The clock: `clock(k, n)` is the reading `datetime.now()` gives the
   * write-back of batch n of customer k's group. Each write-back reads the
   * clock once, so each batch has its own reading.
   */
  type Clock = (CustomerId, nat) -> Timestamp

  /**
   * The run's outside world: the two queries' rows, the item query, the
   * remote system, `round_to_decimal`, the clock and the bulk update.
   */
  datatype Inputs = Inputs(
    aliasRows: seq<AliasRow>,
    orderRows: seq<OrderRow>,
    itemQuery: int -> seq<OrderItem>,
    remote: Remote,
    round: Rounding,
    clock: Clock,
    bulkUpdate: seq<WriteRow> -> bool)

  /** What the group loop works with once the shipping map and the price index are built. */
  datatype Setting = Setting(
    shipMap: ShippingMap,
    index: map<Sku, real>,
    round: Rounding,
    remote: Remote,
    clock: Clock,
    bulkUpdate: seq<WriteRow> -> bool)

  /** Batch n of customer k's group sees the run's inputs and its own clock reading. */
  function BatchContext(ctx: Setting, customerId: CustomerId, n: nat): Context {
    Context(ctx.shipMap, ctx.index, ctx.round, ctx.remote, ctx.clock(customerId, n), ctx.bulkUpdate)
  }

  /** `order["customer"] = customer` for every order of a group. */
  function WithCustomer(orders: seq<PurchaseOrder>, customer: Customer): (r: seq<PurchaseOrder>)
    ensures |r| == |orders|
    ensures forall i :: 0 <= i < |orders| ==> r[i] == orders[i].(customer := Some(customer))
  {
    seq(|orders|, i requires 0 <= i < |orders| => orders[i].(customer := Some(customer)))
  }

  method SetCustomer(orders: seq<PurchaseOrder>, customer: Customer) returns (r: seq<PurchaseOrder>)
    ensures r == WithCustomer(orders, customer)
  {
    r := orders;
    for i := 0 to |orders|
      invariant |r| == |orders|
      invariant forall j :: 0 <= j < i ==> r[j] == orders[j].(customer := Some(customer))
      invariant forall j :: i <= j < |orders| ==> r[j] == orders[j]
    {
      r := r[i := r[i].(customer := Some(customer))];
    }
  }

  /** Every order of every batch has its customer record. */
  ghost predicate Customers(batches: seq<seq<PurchaseOrder>>) {
    forall b, o :: b in batches && o in b ==> o.customer.Some?
  }

  /** The batches of one group, one after the other; an exception ends them. */
  function RunBatches(batches: seq<seq<PurchaseOrder>>, customerId: CustomerId, ctx: Setting): Traced<()>
    requires Customers(batches)
    decreases |batches|
  {
    if |batches| == 0 then Traced(Done(()), [])
    else
      var n := |batches| - 1;
      assert forall o :: o in batches[n] ==> o.customer.Some? by {
        assert batches[n] in batches;
      }
      var before := RunBatches(batches[..n], customerId, ctx);
      match before.outcome
      case Raised(_) => before
      case Done(_) =>
        var step := ProcessBatch(batches[n], customerId, BatchContext(ctx, customerId, n));
        Traced(step.outcome, before.events + step.events)
  }

  /** A group's orders with their customer record, in batches. */
  function GroupBatches(groups: Groups, k: CustomerId, remote: Remote): (r: seq<seq<PurchaseOrder>>)
    requires k in groups.entries
    ensures Customers(r)
  {
    var orders := WithCustomer(groups.entries[k], remote.customer(k));
    BatchesMembers(orders, OrderBatchSize);
    Batches(orders, OrderBatchSize)
  }

  /** The groups, in the dict's order; an exception ends the run. */
  function RunGroups(keys: seq<CustomerId>, groups: Groups, ctx: Setting): Traced<()>
    requires forall k :: k in keys ==> k in groups.entries
    decreases |keys|
  {
    if |keys| == 0 then Traced(Done(()), [])
    else
      var n := |keys| - 1;
      var before := RunGroups(keys[..n], groups, ctx);
      match before.outcome
      case Raised(_) => before
      case Done(_) =>
        var k := keys[n];
        var step := RunBatches(GroupBatches(groups, k, ctx.remote), k, ctx);
        Traced(step.outcome, before.events + step.events)
  }

  /** The catalog's SKU -> price index for the run's SKU list. */
  function CatalogIndex(skus: seq<Sku>, remote: Remote): Outcome<map<Sku, real>> {
    SkuCatalog.Resolve(Batches(skus, SkuCatalog.LookupBatchSize), remote.catalog, map[])
  }

  /** The whole run: everything before the exception handler. */
  function Run(inputs: Inputs): Traced<()> {
    var shipMap := CostMap(inputs.aliasRows);
    var (groups, skus) := Load(inputs.orderRows, inputs.itemQuery);
    match CatalogIndex(skus, inputs.remote)
    case Raised(f) => Traced(Raised(f), [])
    case Done(index) =>
      LoadedKeys(inputs.orderRows, inputs.itemQuery);
      if |groups.keys| == 0 then Traced(Done(()), [])
      else
        var ctx := Setting(shipMap, index, inputs.round, inputs.remote, inputs.clock, inputs.bulkUpdate);
        RunGroups(groups.keys, groups, ctx)
  }

  /** Once a batch raises, the batches after it change nothing. */
  lemma {:induction false} RunBatchesRaised(batches: seq<seq<PurchaseOrder>>, n: nat, customerId: CustomerId, ctx: Setting)
    requires Customers(batches) && n <= |batches|
    requires RunBatches(batches[..n], customerId, ctx).outcome.Raised?
    ensures RunBatches(batches, customerId, ctx) == RunBatches(batches[..n], customerId, ctx)
    decreases |batches| - n
  {
    if n < |batches| {
      var prefix := batches[..|batches| - 1];
      assert prefix[..n] == batches[..n];
      RunBatchesRaised(prefix, n, customerId, ctx);
    } else {
      assert batches[..n] == batches;
    }
  }

  /** Once a group raises, the groups after it are not processed. */
  lemma {:induction false} RunGroupsRaised(keys: seq<CustomerId>, n: nat, groups: Groups, ctx: Setting)
    requires (forall k :: k in keys ==> k in groups.entries) && n <= |keys|
    requires RunGroups(keys[..n], groups, ctx).outcome.Raised?
    ensures RunGroups(keys, groups, ctx) == RunGroups(keys[..n], groups, ctx)
    decreases |keys| - n
  {
    if n < |keys| {
      var prefix := keys[..|keys| - 1];
      assert prefix[..n] == keys[..n];
      RunGroupsRaised(prefix, n, groups, ctx);
    } else {
      assert keys[..n] == keys;
    }
  }

  /** The group fold after one more group, given what that group's batches did. */
  lemma RunGroupsAdvance(keys: seq<CustomerId>, i: nat, groups: Groups, ctx: Setting,
                         events: seq<Event>, done: Outcome<()>, sent: seq<Event>)
    requires (forall k :: k in keys ==> k in groups.entries) && i < |keys|
    requires RunGroups(keys[..i], groups, ctx) == Traced(Done(()), events)
    requires keys[i] in groups.entries
    requires Traced(done, sent) == RunBatches(GroupBatches(groups, keys[i], ctx.remote), keys[i], ctx)
    ensures done.Raised? ==> RunGroups(keys, groups, ctx) == Traced(Raised(done.fault), events + sent)
    ensures done.Done? ==> RunGroups(keys[..i + 1], groups, ctx) == Traced(Done(()), events + sent)
  {
    if done.Raised? {
      RunGroupsStop(keys, i, groups, ctx, events, done.fault, sent);
    } else {
      RunGroupsNext(keys, i, groups, ctx, events, done, sent);
    }
  }

  /** The group fold after one more group that did not raise. */
  lemma RunGroupsNext(keys: seq<CustomerId>, i: nat, groups: Groups, ctx: Setting,
                      events: seq<Event>, done: Outcome<()>, sent: seq<Event>)
    requires (forall k :: k in keys ==> k in groups.entries) && i < |keys|
    requires RunGroups(keys[..i], groups, ctx) == Traced(Done(()), events)
    requires RunBatches(GroupBatches(groups, keys[i], ctx.remote), keys[i], ctx) == Traced(done, sent) && done.Done?
    ensures RunGroups(keys[..i + 1], groups, ctx) == Traced(Done(()), events + sent)
  {
    assert keys[..i + 1][..i] == keys[..i];
  }

  /** A group that raises ends the run with everything sent up to then. */
  lemma RunGroupsStop(keys: seq<CustomerId>, i: nat, groups: Groups, ctx: Setting, events: seq<Event>, f: Fault, sent: seq<Event>)
    requires (forall k :: k in keys ==> k in groups.entries) && i < |keys|
    requires RunGroups(keys[..i], groups, ctx) == Traced(Done(()), events)
    requires RunBatches(GroupBatches(groups, keys[i], ctx.remote), keys[i], ctx) == Traced(Raised(f), sent)
    ensures RunGroups(keys, groups, ctx) == Traced(Raised(f), events + sent)
  {
    assert keys[..i + 1][..i] == keys[..i];
    RunGroupsRaised(keys, i + 1, groups, ctx);
  }

  /** One group's batch loop (main.py:67-149). */
  method ProcessGroup(batches: seq<seq<PurchaseOrder>>, customerId: CustomerId, ctx: Setting)
    returns (r: Outcome<()>, events: seq<Event>)
    requires Customers(batches)
    requires forall b, o :: b in batches && o in b ==> o.amounts.None?
    ensures Traced(r, events) == RunBatches(batches, customerId, ctx)
  {
    events := [];
    for j := 0 to |batches|
      invariant RunBatches(batches[..j], customerId, ctx) == Traced(Done(()), events)
    {
      assert batches[..j + 1][..j] == batches[..j];
      assert batches[j] in batches;
      var done, sent := UploadBatch(batches[j], customerId, BatchContext(ctx, customerId, j));
      events := events + sent;
      if done.Raised? {
        RunBatchesRaised(batches, j + 1, customerId, ctx);
        return Raised(done.fault), events;
      }
    }
    assert batches[..|batches|] == batches;
    return Done(()), events;
  }

  /** One dropshipper's group: attach the customer record, make the batches, process them. */
  method ProcessDropshipper(groups: Groups, sellercloudId: CustomerId, ctx: Setting)
    returns (r: Outcome<()>, events: seq<Event>)
    requires sellercloudId in groups.entries
    requires forall o :: o in groups.entries[sellercloudId] ==> Fresh(o)
    ensures Traced(r, events) == RunBatches(GroupBatches(groups, sellercloudId, ctx.remote), sellercloudId, ctx)
  {
    var customer := ctx.remote.customer(sellercloudId);
    var orders := SetCustomer(groups.entries[sellercloudId], customer);
    var batches := BatchesCreator(orders, OrderBatchSize);
    BatchesMembers(orders, OrderBatchSize);
    forall b, o | b in batches && o in b
      ensures o.amounts.None?
    {
      var j :| 0 <= j < |orders| && orders[j] == o;
      assert groups.entries[sellercloudId][j] in groups.entries[sellercloudId];
    }
    r, events := ProcessGroup(batches, sellercloudId, ctx);
  }

  /** The loop over the dropshippers' groups (main.py:62-149). */
  method ProcessGroups(poObjects: Groups, ctx: Setting) returns (r: Outcome<()>, events: seq<Event>)
    requires forall k :: k in poObjects.keys ==> k in poObjects.entries
    requires forall k, o :: k in poObjects.entries && o in poObjects.entries[k] ==> Fresh(o)
    ensures Traced(r, events) == RunGroups(poObjects.keys, poObjects, ctx)
  {
    var keys := poObjects.keys;
    events := [];
    for i := 0 to |keys|
      invariant RunGroups(keys[..i], poObjects, ctx) == Traced(Done(()), events)
    {
      assert keys[i] in keys;
      var done, sent := ProcessDropshipper(poObjects, keys[i], ctx);
      RunGroupsAdvance(keys, i, poObjects, ctx, events, done, sent);
      events := events + sent;
      if done.Raised? {
        return Raised(done.fault), events;
      }
    }
    assert keys[..|keys|] == keys;
    return Done(()), events;
  }

  /** `main`, up to its exception handler. */
  method RunOnce(inputs: Inputs) returns (r: Outcome<()>, events: seq<Event>)
    ensures Traced(r, events) == Run(inputs)
  {
    var skuShippingMap := GetSkuAliasList(inputs.aliasRows);
    var poObjects, skusInBatch := LoadPurchaseOrders(inputs.orderRows, inputs.itemQuery);
    var index := SkuCatalog.GetSkusInCatalog(skusInBatch, inputs.remote.catalog);
    if index.Raised? {
      return Raised(index.fault), [];
    }
    assert poObjects == Load(inputs.orderRows, inputs.itemQuery).0;
    LoadedKeys(inputs.orderRows, inputs.itemQuery);
    LoadedFresh(inputs.orderRows, inputs.itemQuery);
    if |poObjects.keys| == 0 {
      return Done(()), [];
    }
    var ctx := Setting(skuShippingMap, index.value, inputs.round, inputs.remote, inputs.clock, inputs.bulkUpdate);
    r, events := ProcessGroups(poObjects, ctx);
  }

  /** A failed catalog lookup ends the run before any order is built: nothing is sent or written. */
  lemma CatalogFailureStops(inputs: Inputs)
    requires CatalogIndex(Load(inputs.orderRows, inputs.itemQuery).1, inputs.remote).Raised?
    ensures Run(inputs) == Traced(Raised(CatalogLookupFailed), [])
  {
    var batches := Batches(Load(inputs.orderRows, inputs.itemQuery).1, SkuCatalog.LookupBatchSize);
    SkuCatalog.ResolveFault(batches, inputs.remote.catalog, map[]);
  }

  /**
   * Without order rows nothing is sent or written; the catalog is still
   * asked once, for an empty SKU list, and its failure is the run's only
   * possible fault.
   */
  lemma NoOrders(inputs: Inputs)
    requires |inputs.orderRows| == 0
    ensures Run(inputs) == if inputs.remote.catalog(SkuCatalog.Query([])).CatalogRaised?
                           then Traced(Raised(CatalogLookupFailed), [])
                           else Traced(Done(()), [])
  {
    var none: seq<Sku> := [];
    assert Load(inputs.orderRows, inputs.itemQuery) == (Empty(), none);
    assert Batches(none, SkuCatalog.LookupBatchSize) == [none];
    assert [none][1..] == [];
    var lookup := inputs.remote.catalog;
    match lookup(SkuCatalog.Query(none))
    case CatalogRaised =>
    case CatalogSkipped =>
      assert SkuCatalog.Resolve([none], lookup, map[]) == SkuCatalog.Resolve([], lookup, map[]);
    case CatalogItems(items) =>
      assert SkuCatalog.Resolve([none], lookup, map[])
          == SkuCatalog.Resolve([], lookup, SkuCatalog.Absorb(map[], items));
  }
}
