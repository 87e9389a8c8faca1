/**
 * `ExampleDb.updating_order_data_in_db` (example_db.py:134-173): build one
 * update tuple per order, then run the bulk update. Building a tuple reads
 * the order's remote id and shipping total outside the guarded block, so a
 * missing one raises; a failing bulk update is caught and reported by one
 * email. The clock reading is the parameter `time`; the bulk update and its
 * commit are the parameter `bulkUpdate`, true when it succeeds.
 */
module WriteBack {
  import opened Wrappers
  import opened Records

  /** The tuple for one order, or the fault reading its fields raises. */
  function RowFor(order: PurchaseOrder, time: Timestamp): Outcome<WriteRow> {
    if order.remoteId.None? then Raised(MissingRemoteId(order.row.poNumber))
    else if order.amounts.None? then Raised(MissingAmounts(order.row.poNumber))
    else Done(WriteRow(time, order.remoteId.value, order.amounts.value.shippingTotal, order.row.poNumber))
  }

  /** `purchase_orders_data` after the given orders. */
  function WriteRows(orders: seq<PurchaseOrder>, time: Timestamp): Outcome<seq<WriteRow>>
    decreases |orders|
  {
    if |orders| == 0 then Done([])
    else
      match WriteRows(orders[..|orders| - 1], time)
      case Raised(f) => Raised(f)
      case Done(rows) =>
        match RowFor(orders[|orders| - 1], time)
        case Raised(f) => Raised(f)
        case Done(row) => Done(rows + [row])
  }

  /** The whole call: the tuples, then the guarded bulk update. */
  function UpdateOrders(orders: seq<PurchaseOrder>, time: Timestamp, bulkUpdate: seq<WriteRow> -> bool)
    : Traced<()>
  {
    match WriteRows(orders, time)
    case Raised(f) => Traced(Raised(f), [])
    case Done(rows) =>
      if bulkUpdate(rows) then Traced(Done(()), [WriteBackCommitted(rows)])
      else Traced(Done(()), [WriteBackError(orders)])
  }

  method UpdatingOrderDataInDb(orders: seq<PurchaseOrder>, time: Timestamp, bulkUpdate: seq<WriteRow> -> bool)
    returns (r: Outcome<()>, events: seq<Event>)
    ensures Traced(r, events) == UpdateOrders(orders, time, bulkUpdate)
  {
    var purchaseOrdersData: seq<WriteRow> := [];
    for i := 0 to |orders|
      invariant WriteRows(orders[..i], time) == Done(purchaseOrdersData)
    {
      assert orders[..i + 1][..i] == orders[..i];
      var order := orders[i];
      if !Writable(order) {
        WriteRowsStop(orders, i, time);
      }
      if order.remoteId.None? {
        return Raised(MissingRemoteId(order.row.poNumber)), [];
      }
      if order.amounts.None? {
        return Raised(MissingAmounts(order.row.poNumber)), [];
      }
      purchaseOrdersData := purchaseOrdersData
        + [WriteRow(time, order.remoteId.value, order.amounts.value.shippingTotal, order.row.poNumber)];
    }
    assert orders[..|orders|] == orders;
    if bulkUpdate(purchaseOrdersData) {
      return Done(()), [WriteBackCommitted(purchaseOrdersData)];
    }
    return Done(()), [WriteBackError(orders)];
  }

  /** The order has everything its tuple reads. */
  predicate Writable(order: PurchaseOrder) {
    order.remoteId.Some? && order.amounts.Some?
  }

  /**
   * The tuples are built iff every order has a remote id and amounts; then
   * there is one per order, in order, holding the clock reading, the remote
   * id, the shipping total and the PO number. Otherwise the first order
   * lacking one raises, the remote id being read first.
   */
  lemma {:induction false} WriteRowsSpec(orders: seq<PurchaseOrder>, time: Timestamp)
    ensures WriteRows(orders, time).Done? <==> forall i :: 0 <= i < |orders| ==> Writable(orders[i])
    ensures WriteRows(orders, time).Done? ==>
      && |WriteRows(orders, time).value| == |orders|
      && forall i :: 0 <= i < |orders| ==>
           WriteRows(orders, time).value[i]
             == WriteRow(time, orders[i].remoteId.value, orders[i].amounts.value.shippingTotal, orders[i].row.poNumber)
    ensures forall k :: 0 <= k < |orders| && !Writable(orders[k]) && (forall i :: 0 <= i < k ==> Writable(orders[i])) ==>
      WriteRows(orders, time) == Raised(if orders[k].remoteId.None? then MissingRemoteId(orders[k].row.poNumber)
                                        else MissingAmounts(orders[k].row.poNumber))
    decreases |orders|
  {
    if |orders| > 0 {
      var prefix := orders[..|orders| - 1];
      WriteRowsSpec(prefix, time);
      assert forall i :: 0 <= i < |prefix| ==> prefix[i] == orders[i];
    }
  }

  /**
   * With every order writable, the bulk update receives exactly their
   * tuples and either commits them or sends one email naming the orders;
   * nothing is raised.
   */
  lemma UpdateOrdersSpec(orders: seq<PurchaseOrder>, time: Timestamp, bulkUpdate: seq<WriteRow> -> bool)
    requires forall i :: 0 <= i < |orders| ==> Writable(orders[i])
    ensures WriteRows(orders, time).Done?
    ensures var rows := WriteRows(orders, time).value;
      UpdateOrders(orders, time, bulkUpdate)
        == if bulkUpdate(rows) then Traced(Done(()), [WriteBackCommitted(rows)])
           else Traced(Done(()), [WriteBackError(orders)])
  {
    WriteRowsSpec(orders, time);
  }

  /** An order that cannot be written, after writable ones, decides the fault. */
  lemma WriteRowsStop(orders: seq<PurchaseOrder>, i: nat, time: Timestamp)
    requires i < |orders| && WriteRows(orders[..i], time).Done? && !Writable(orders[i])
    ensures RowFor(orders[i], time).Raised? && WriteRows(orders, time) == Raised(RowFor(orders[i], time).fault)
  {
    WriteRowsSpec(orders[..i], time);
    assert forall j :: 0 <= j < i ==> orders[..i][j] == orders[j];
    WriteRowsSpec(orders, time);
  }

  /** When every order has its amounts, the only fault the tuples can raise is a missing remote id. */
  lemma {:induction false} WriteRowsMissingId(orders: seq<PurchaseOrder>, time: Timestamp)
    requires forall i :: 0 <= i < |orders| ==> orders[i].amounts.Some?
    ensures WriteRows(orders, time).Raised? ==> WriteRows(orders, time).fault.MissingRemoteId?
    decreases |orders|
  {
    if |orders| > 0 {
      var prefix := orders[..|orders| - 1];
      assert forall i :: 0 <= i < |prefix| ==> prefix[i] == orders[i];
      WriteRowsMissingId(prefix, time);
    }
  }
}
