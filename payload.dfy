/**
 * Payload assembly: `OrderCreator.create_order` (order_creator.py:14-100).
 * Validate the order's items, price them, derive the order reference id,
 * pick the carrier for the dropshipper's shipping method and build the
 * create-order request together with the order's amounts.
 */
module OrderPayload {
  import opened Wrappers
  import opened Records
  import opened Text
  import opened SkuValidation
  import opened ShippingPricing

  /** `CompanyID`, a placeholder in the source. */
  const CompanyId: int := 1
  /** The sales channel every uploaded order is booked under. */
  const Channel: int := 21

  /**
   * The order reference id: the PO number when it already starts with the
   * dropshipper code, otherwise the code and the PO number run together.
   */
  function ReferenceId(code: string, poNumber: string): (r: RefId)
    ensures IsPrefix(code, r)
    ensures r == poNumber <==> IsPrefix(code, poNumber)
    ensures r == poNumber || r == code + poNumber
  {
    if Take(poNumber, |code|) == code then poNumber else code + poNumber
  }

  /** Deriving the reference id from a reference id changes nothing. */
  lemma ReferenceIdIdempotent(code: string, poNumber: string)
    ensures ReferenceId(code, ReferenceId(code, poNumber)) == ReferenceId(code, poNumber)
  {
  }

  /**
   * `shipping_details` for the dropshipper's `ship_method`; None where the
   * source leaves the variable unbound.
   */
  function ShippingDetailsFor(shipMethod: string, fee: real): (r: Option<ShippingDetails>)
    ensures r.Some? <==> shipMethod == "UPS Ground" || shipMethod == "FEDEX Ground HD"
    ensures r.Some? ==> r.value.shippingFee == fee && r.value.allowShippingEvenNotPaid
    ensures shipMethod == "UPS Ground" ==> r.value.shippingMethod == "UPSGround" && r.value.carrier == "UPS"
    ensures shipMethod == "FEDEX Ground HD" ==> r.value.shippingMethod == "FedExGround" && r.value.carrier == "Fedex"
  {
    if shipMethod == "UPS Ground" then Some(ShippingDetails("UPSGround", "UPS", fee, true))
    else if shipMethod == "FEDEX Ground HD" then Some(ShippingDetails("FedExGround", "Fedex", fee, true))
    else None
  }

  /** The request body, once the line items, amounts and shipping details are known. */
  function SubmissionFor(order: PurchaseOrder, customerId: CustomerId, customer: Customer,
                         products: seq<LineItem>, shipping: ShippingDetails): Submission
  {
    var row := order.row;
    Submission(
      CustomerDetails(customerId, customer.email, customer.name, customer.name, true),
      OrderDetails(CompanyId, row.isExempt, Channel, ReferenceId(row.dropshipperCode, row.poNumber), row.orderDate),
      products,
      ShippingAddress(row.firstName, row.lastName, row.country, row.city, row.state, row.zip, row.address, row.phone),
      shipping)
  }

  /** What follows pricing: the `if products` test and the shipping details. */
  function Assemble(order: PurchaseOrder, customerId: CustomerId, customer: Customer,
                    priced: Outcome<Option<PricedOrder>>): Outcome<Option<Built>>
  {
    match priced
    case Raised(f) => Raised(f)
    case Done(None) => Done(None)
    case Done(Some(p)) =>
      if |p.products| == 0 then Done(None)
      else
        match ShippingDetailsFor(order.row.shipMethod, p.amounts.shippingTotal)
        case None => Raised(UnmappedShipMethod(order.row.shipMethod))
        case Some(shipping) => Done(Some(Built(SubmissionFor(order, customerId, customer, p.products, shipping), p.amounts)))
  }

  /**
   * `create_order(order, sellercloud_id, sku_shipping_map)`, with
   * `_create_skus` called with the arguments its five parameters name;
   * `index` is the catalog's SKU -> price index.
   */
  function BuildOrder(order: PurchaseOrder, customerId: CustomerId, shipMap: ShippingMap,
                      index: map<Sku, real>, round: Rounding): Traced<Option<Built>>
    requires order.customer.Some?
  {
    var customer := order.customer.value;
    var (valid, reports) := Validation(order.items, order.row.poNumber, customer.name, index);
    if valid.None? || |valid.value| == 0 then Traced(Done(None), reports)
    else
      var priced := Pricing(valid.value, shipMap, order.row.shipsWithCompanyAccount,
                            customer.wholesaleDiscount, order.row.poNumber, round);
      Traced(Assemble(order, customerId, customer, priced.outcome), reports + priced.events)
  }

  /**
   * `create_order` as written: once validation yields a non-empty list,
   * the call to `_create_skus` passes seven arguments to a method that
   * declares five, which raises before anything is priced.
   */
  function BuildOrderAsWritten(order: PurchaseOrder, customerId: CustomerId, shipMap: ShippingMap,
                               index: map<Sku, real>, round: Rounding): (r: Traced<Option<Built>>)
    requires order.customer.Some?
    ensures !(r.outcome.Done? && r.outcome.value.Some?)
  {
    var customer := order.customer.value;
    var (valid, reports) := Validation(order.items, order.row.poNumber, customer.name, index);
    if valid.None? || |valid.value| == 0 then Traced(Done(None), reports)
    else Traced(Raised(CreateSkusArity(7, 5)), reports)
  }

  method CreateOrder(order: PurchaseOrder, customerId: CustomerId, shipMap: ShippingMap,
                     index: map<Sku, real>, round: Rounding)
    returns (r: Outcome<Option<Built>>, events: seq<Event>)
    requires order.customer.Some?
    ensures Traced(r, events) == BuildOrder(order, customerId, shipMap, index, round)
  {
    var customer := order.customer.value;
    var skus, reports := ValidateSkus(order.items, order.row.poNumber, customer.name, index);
    if skus.None? || |skus.value| == 0 {
      return Done(None), reports;
    }
    var priced, shippingEmails := CreateSkus(skus.value, shipMap, order.row.shipsWithCompanyAccount,
                                             customer.wholesaleDiscount, order.row.poNumber, round);
    events := reports + shippingEmails;
    if priced.Raised? {
      return Raised(priced.fault), events;
    }
    if priced.value.None? || |priced.value.value.products| == 0 {
      return Done(None), events;
    }
    var p := priced.value.value;
    var shipping := ShippingDetailsFor(order.row.shipMethod, p.amounts.shippingTotal);
    if shipping.None? {
      return Raised(UnmappedShipMethod(order.row.shipMethod)), events;
    }
    r := Done(Some(Built(SubmissionFor(order, customerId, customer, p.products, shipping.value), p.amounts)));
  }

  /**
   * An order whose items are not all sellable, or that has no items, is
   * skipped: no request is built. Only the former sends an email, the one
   * missing-parts report.
   */
  lemma SkippedOrders(order: PurchaseOrder, customerId: CustomerId, shipMap: ShippingMap,
                      index: map<Sku, real>, round: Rounding)
    requires order.customer.Some?
    ensures |order.items| == 0 ==>
      BuildOrder(order, customerId, shipMap, index, round) == Traced(Done(None), [])
    ensures (exists i :: 0 <= i < |order.items| && !IsValid(index, order.items[i])) ==>
      BuildOrder(order, customerId, shipMap, index, round)
        == Traced(Done(None), [MissingPartsReport(ReportFor(order.items, index), order.row.poNumber,
                    order.customer.value.name,
                    exists i :: 0 <= i < |order.items| && PriceMissing(index, order.items[i]))])
  {
    ValidationSpec(order.items, order.row.poNumber, order.customer.value.name, index);
  }

  /** Every item is sellable, and shipping can be priced for each of them. */
  predicate Priceable(order: PurchaseOrder, shipMap: ShippingMap, index: map<Sku, real>) {
    && (forall i :: 0 <= i < |order.items| ==> IsValid(index, order.items[i]))
    && (order.row.shipsWithCompanyAccount ==>
          forall i :: 0 <= i < |order.items| ==> Shippable(shipMap, Priced(index, order.items[i])))
  }

  /** The validated items of an order whose items are all sellable. */
  function PricedItems(order: PurchaseOrder, index: map<Sku, real>): (r: seq<PricedItem>)
    requires forall i :: 0 <= i < |order.items| ==> IsValid(index, order.items[i])
    ensures |r| == |order.items|
    ensures forall i :: 0 <= i < |r| ==> r[i] == Priced(index, order.items[i])
  {
    seq(|order.items|, i requires 0 <= i < |order.items| => Priced(index, order.items[i]))
  }

  /**
   * A non-empty order whose items are all sellable and can be priced gives
   * a request with one line per item, in order, at the customer's discount;
   * its reference id starts with the dropshipper code; the fee and the
   * returned amounts carry the rounded shipping total (round(0) without a
   * company account); customer, address and order details come from the
   * order. No email is sent. An unmapped shipping method raises instead.
   */
  lemma BuiltOrder(order: PurchaseOrder, customerId: CustomerId, shipMap: ShippingMap,
                   index: map<Sku, real>, round: Rounding)
    requires order.customer.Some? && |order.items| > 0 && Priceable(order, shipMap, index)
    ensures var r := BuildOrder(order, customerId, shipMap, index, round);
      var row := order.row;
      var customer := order.customer.value;
      var items := PricedItems(order, index);
      var total := if row.shipsWithCompanyAccount then round(ShipSum(items, shipMap)) else round(0.0);
      && r.events == []
      && (ShippingDetailsFor(row.shipMethod, total).None? <==> r.outcome == Raised(UnmappedShipMethod(row.shipMethod)))
      && (ShippingDetailsFor(row.shipMethod, total).Some? ==>
            && r.outcome.Done? && r.outcome.value.Some?
            && var b := r.outcome.value.value;
            && b.amounts == OrderAmounts(total)
            && b.submission.products == LineItems(items, customer.wholesaleDiscount)
            && |b.submission.products| == |order.items|
            && b.submission.shipping == ShippingDetailsFor(row.shipMethod, total).value
            && b.submission.details == OrderDetails(CompanyId, row.isExempt, Channel, ReferenceId(row.dropshipperCode, row.poNumber), row.orderDate)
            && IsPrefix(row.dropshipperCode, b.submission.details.sourceOrderId)
            && b.submission.customer == CustomerDetails(customerId, customer.email, customer.name, customer.name, true)
            && b.submission.address == ShippingAddress(row.firstName, row.lastName, row.country, row.city,
                                                       row.state, row.zip, row.address, row.phone))
  {
    var customer := order.customer.value;
    var items := PricedItems(order, index);
    ValidationSpec(order.items, order.row.poNumber, customer.name, index);
    var (valid, reports) := Validation(order.items, order.row.poNumber, customer.name, index);
    assert valid.value == items;
    PricingSpec(items, shipMap, order.row.shipsWithCompanyAccount, customer.wholesaleDiscount, order.row.poNumber, round);
  }

  /**
   * With a company account, the first validated item without a shipping
   * entry stops the order after one shipping email (a NULL cost raises);
   * no request is built.
   */
  lemma UnshippableOrder(order: PurchaseOrder, customerId: CustomerId, shipMap: ShippingMap,
                         index: map<Sku, real>, round: Rounding, k: nat)
    requires order.customer.Some? && order.row.shipsWithCompanyAccount
    requires forall i :: 0 <= i < |order.items| ==> IsValid(index, order.items[i])
    requires k < |order.items| && !Shippable(shipMap, Priced(index, order.items[k]))
    requires forall i :: 0 <= i < k ==> Shippable(shipMap, Priced(index, order.items[i]))
    ensures var sku := order.items[k].sku;
      BuildOrder(order, customerId, shipMap, index, round)
        == if Some(sku) in shipMap then Traced(Raised(NullShippingCost(sku)), [])
           else Traced(Done(None), [ShippingCostError(order.row.poNumber, sku)])
  {
    var customer := order.customer.value;
    var items := PricedItems(order, index);
    ValidationSpec(order.items, order.row.poNumber, customer.name, index);
    var (valid, reports) := Validation(order.items, order.row.poNumber, customer.name, index);
    assert valid.value == items;
    PricingSpec(items, shipMap, true, customer.wholesaleDiscount, order.row.poNumber, round);
  }

  /** The reference id an order is submitted under. */
  function RefOf(order: PurchaseOrder): RefId {
    ReferenceId(order.row.dropshipperCode, order.row.poNumber)
  }

  /** A built request carries the order's reference id. */
  lemma BuiltReference(order: PurchaseOrder, customerId: CustomerId, shipMap: ShippingMap,
                       index: map<Sku, real>, round: Rounding)
    requires order.customer.Some?
    ensures var r := BuildOrder(order, customerId, shipMap, index, round).outcome;
      r.Done? && r.value.Some? ==> r.value.value.submission.details.sourceOrderId == RefOf(order)
  {
  }

  /**
   * As written, no order is ever submitted: an order the corrected
   * composition would build raises the arity error instead.
   */
  lemma AsWrittenRaises(order: PurchaseOrder, customerId: CustomerId, shipMap: ShippingMap,
                        index: map<Sku, real>, round: Rounding)
    requires order.customer.Some? && |order.items| > 0
    requires forall i :: 0 <= i < |order.items| ==> IsValid(index, order.items[i])
    ensures BuildOrderAsWritten(order, customerId, shipMap, index, round).outcome == Raised(CreateSkusArity(7, 5))
  {
    ValidationSpec(order.items, order.row.poNumber, order.customer.value.name, index);
  }

  /** A concrete order: one sellable item, no company account, UPS Ground. */
  lemma ArityCounterexample(round: Rounding)
    ensures var row := OrderRow(7, "AB", 1, "AB100", "2024-02-01 10:00:00", "Ann", "Lee", "555", "1 Main St",
                                "Austin", "Texas", "78701", "US", 3, false, false, "UPS Ground");
      var order := PurchaseOrder(row, [OrderItem("W-1", 2)], Some(Customer("Acme", "a@acme.test", 10.0)), None, None);
      var index := map["W-1" := 5.0];
      && BuildOrderAsWritten(order, 7, map[], index, round).outcome == Raised(CreateSkusArity(7, 5))
      && BuildOrder(order, 7, map[], index, round).outcome.Done?
      && BuildOrder(order, 7, map[], index, round).outcome.value.Some?
  {
    var row := OrderRow(7, "AB", 1, "AB100", "2024-02-01 10:00:00", "Ann", "Lee", "555", "1 Main St",
                        "Austin", "Texas", "78701", "US", 3, false, false, "UPS Ground");
    var order := PurchaseOrder(row, [OrderItem("W-1", 2)], Some(Customer("Acme", "a@acme.test", 10.0)), None, None);
    var index := map["W-1" := 5.0];
    assert IsValid(index, order.items[0]);
    AsWrittenRaises(order, 7, map[], index, round);
    BuiltOrder(order, 7, map[], index, round);
  }
}
