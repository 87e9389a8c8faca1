/**
 * The data the order-sync core works on: database rows, the in-memory
 * purchase order (a Python dict in the source, a record here), the payload
 * sent to the remote order-management system, its responses, and the
 * observable effects of a run (emails and committed database updates).
 */
module Records {
  import opened Wrappers

  type Sku = string
  /** The canonical order reference id sent as `OrderSourceOrderID`. */
  type RefId = string
  type CustomerId = int
  /** A numeric order id issued by the remote system. */
  type RemoteId = int
  /** The run's clock reading, as the database receives it. */
  type Timestamp = string
  /** `round_to_decimal`, whose definition is not part of this model. */
  type Rounding = real -> real

  /** One row of the order query (example_db.py:50-79). */
  datatype OrderRow = OrderRow(
    customerId: CustomerId,            // d.sellercloud_customer_id
    dropshipperCode: string,           // d.code
    id: int,                           // po.id
    poNumber: string,                  // po.purchase_order_number
    orderDate: string,                 // po.date_added, already formatted
    firstName: string,
    lastName: string,
    phone: string,
    address: string,
    city: string,
    state: string,
    zip: string,
    country: string,
    dropshipperId: int,
    isExempt: bool,
    shipsWithCompanyAccount: bool,
    shipMethod: string)

  /** One row of the item query: `sku, quantity`. */
  datatype OrderItem = OrderItem(sku: Sku, quantity: int)

  /** The customer record fetched from the remote system for a group. */
  datatype Customer = Customer(name: string, email: string, wholesaleDiscount: real)

  /** `order_amounts`; its `skus_prices` part is always empty in the source. */
  datatype OrderAmounts = OrderAmounts(shippingTotal: real)

  /**
   * The purchase-order dict: the row's columns plus the keys the run adds
   * (`items`, `customer`, `order_amounts`, `sellercloud_order_id`).
   * `None` stands for a key not yet set (or set to None).
   */
  datatype PurchaseOrder = PurchaseOrder(
    row: OrderRow,
    items: seq<OrderItem>,
    customer: Option<Customer>,
    amounts: Option<OrderAmounts>,
    remoteId: Option<RemoteId>)

  /** A validated item: in the catalog with a positive unit price. */
  datatype PricedItem = PricedItem(sku: Sku, quantity: int, unitPrice: real)

  /** One entry of the payload's `Products`. */
  datatype LineItem = LineItem(productId: Sku, qty: int, discountValue: real, discountType: int)

  datatype CustomerDetails = CustomerDetails(
    id: CustomerId, email: string, firstName: string, business: string, isWholesale: bool)

  datatype OrderDetails = OrderDetails(
    companyId: int, taxExempt: bool, channel: int, sourceOrderId: RefId, orderDate: string)

  datatype ShippingAddress = ShippingAddress(
    firstName: string, lastName: string, country: string, city: string,
    state: string, zipCode: string, address: string, phone: string)

  datatype ShippingDetails = ShippingDetails(
    shippingMethod: string, carrier: string, shippingFee: real, allowShippingEvenNotPaid: bool)

  /** The order object submitted to the remote system's create-order call. */
  datatype Submission = Submission(
    customer: CustomerDetails,
    details: OrderDetails,
    products: seq<LineItem>,
    address: ShippingAddress,
    shipping: ShippingDetails)

  /** What `create_order` hands back when it does not return (None, None). */
  datatype Built = Built(submission: Submission, amounts: OrderAmounts)

  /** Shipping map key: a SKU or an alias; a missing alias is the key None. */
  type ShipKey = Option<string>
  /** Shipping map value: the `shipping_cost` column, which may be NULL. */
  type ShipCost = Option<real>
  type ShippingMap = map<ShipKey, ShipCost>

  /** One row of the SKU/alias view: `sku, alias, shipping_cost`. */
  datatype AliasRow = AliasRow(sku: Sku, alias: Option<string>, shippingCost: ShipCost)

  /** An item the catalog lookup reports: `ID` and `WholeSalePrice`. */
  datatype CatalogItem = CatalogItem(id: Sku, wholesalePrice: real)

  /**
   * The answer to one catalog lookup: the call or its decoding raised; the
   * response was not OK or its body was empty (skipped); or the reported items.
   */
  datatype CatalogReply = CatalogRaised | CatalogSkipped | CatalogItems(items: seq<CatalogItem>)

  /** The create-order response: status code, raw text and decoded body. */
  datatype CreateResponse = CreateResponse(status: int, text: string, body: RemoteId)

  /** An item of the order-id lookup: `OrderSourceOrderID` and `ID`. */
  datatype IdsItem = IdsItem(sourceOrderId: RefId, id: RemoteId)

  datatype IdsResponse = IdsResponse(status: int, text: string, items: seq<IdsItem>)

  /**
   * The remote order-management system, each call a function of its
   * argument: the catalog lookup (by its `skus` argument), the customer
   * record, order creation (by the request) and the order-id lookup (by
   * its `order_ids` argument).
   */
  datatype Remote = Remote(
    catalog: string -> CatalogReply,
    customer: CustomerId -> Customer,
    createOrder: Submission -> CreateResponse,
    lookupIds: string -> IdsResponse)

  /** One tuple of the bulk update: time, remote id, shipping cost, PO number. */
  datatype WriteRow = WriteRow(time: Timestamp, remoteId: RemoteId, shippingCost: real, poNumber: string)

  /** The observable effects of a run, in the order they happen. */
  datatype Event =
    | MissingPartsReport(skuLines: string, poNumber: string, dropshipperName: string, missingPrice: bool)
    | ShippingCostError(poNumber: string, sku: Sku)
    | UploadError(order: PurchaseOrder, errorText: string)
    | RemoteIdLookupError(errorText: string, refIds: seq<RefId>)
    | WriteBackError(orders: seq<PurchaseOrder>)
    | WriteBackCommitted(rows: seq<WriteRow>)

  /** An exception that escapes to the run's top-level handler. */
  datatype Fault =
    | CatalogLookupFailed                          // _get_skus_in_sellercloud re-raises
    | NullShippingCost(sku: Sku)                   // None * quantity
    | UnmappedShipMethod(shipMethod: string)       // shipping_details unbound
    | CreateSkusArity(given: nat, declared: nat)   // TypeError at the _create_skus call
    | UnknownEchoedId(refId: RefId)                // KeyError in the duplicate index
    | StaleDuplicateIndex(index: nat)              // IndexError on orders[index]
    | MissingRemoteId(poNumber: string)            // KeyError on sellercloud_order_id
    | MissingAmounts(poNumber: string)             // order_amounts is None

  /** The result of a step: a value, or the fault it raised. */
  datatype Outcome<+T> = Done(value: T) | Raised(fault: Fault)

  /** A step's outcome together with the events it produced before ending. */
  datatype Traced<+T> = Traced(outcome: Outcome<T>, events: seq<Event>)
}
