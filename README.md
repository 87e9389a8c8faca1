# Dropship order upload to SellerCloud — a Dafny model

This project models the order-sync core of `dropship_order_sellercloud_upload`.
One run of that program does the following:

- It reads the SKU/alias view into a shipping-cost map.
- It loads the purchase orders not yet in SellerCloud and groups them by the
  dropshipper's SellerCloud customer id. It also collects every item's SKU.
- It resolves those SKUs against the SellerCloud catalog in lookups of at most 50.
- It gives every order its dropshipper's customer record.
- It processes each dropshipper's orders in batches of 50. For each order it:
  - validates the items against the catalog (one missing-parts email per
    invalid order);
  - prices shipping;
  - derives the order reference id (`OrderSourceOrderID`) and builds the
    create-order request, then submits it.

  As written, `create_order` calls `_create_skus` with more arguments than it
  declares (see "## Findings"), so the first order whose items all validate
  raises and nothing is submitted. The run is modelled with that call
  corrected; the as-written build is `OrderPayload.BuildOrderAsWritten`.
- A created order keeps its remote id. An order SellerCloud already has is
  recorded as a duplicate by its reference id. Any other response drops the
  order after an email.
- The duplicates' remote ids are then fetched with one lookup.
- The remaining orders of the batch are written back to the database in one
  bulk update. A failed update is reported by email.

How the model represents the program:

- An exception that escapes to the top-level handler is a `Raised(Fault)`.
- The emails and the committed update are `Event`s, kept in the order they
  happen.
- SellerCloud is a `Remote` value whose calls are functions of their
  arguments.
- The database rows, the item query, the clock, `round_to_decimal` and the
  bulk update are inputs of the run. The clock gives each batch's write-back
  its own reading.

Each loop of the source is a method. Each method is proved equal to a
specification function, and the properties are lemmas about those functions.

| module | models |
|---|---|
| `Batching` | `batches_creator` and the SKU lookup's batch drain (pop 50 off the end, reversed; then the rest in order) |
| `ShippingCosts` | the shipping map of `get_sku_alias_list` |
| `OrderLoading` | grouping and SKU collection in `load_purchase_orders_not_in_sellercloud` |
| `SkuCatalog` | `_get_skus_in_sellercloud` |
| `SkuValidation` | `_validate_skus` |
| `ShippingPricing` | `_create_skus` |
| `OrderPayload` | `create_order` |
| `WriteBack` | `updating_order_data_in_db` |
| `BatchController` | the per-batch loop of `main` |
| `Driver` | `main` up to its exception handler |

The code and the written description of the system disagree in a few places.
The model follows the code:

- The reference ids in the duplicate lookup are joined with `" ,"`, not `", "`.
- The FedEx carrier is spelled `"Fedex"`.
- An unmapped shipping method leaves `shipping_details` unbound. That raises;
  it is not a chosen default.
- SKUs the catalog reports with a price of zero or less are kept in the index.
  Validation then rejects them and flags them as missing a price.

## Model

| member | source | states |
|---|---|---|
| Batching.BatchesCreator | main.py:8-31 | the loop builds exactly the batches of the batch specification |
| Batching.PopTail | main.py:16 | popping `count` elements gives the last `count` elements reversed, and leaves the prefix |
| Batching.BatchesPermute | main.py:14-21 | the batches together hold exactly the input elements (as a multiset) |
| Batching.BatchesMembers | main.py:15-21 | every element of every batch comes from the input |
| Batching.BatchesBounded | main.py:15-19 | there is at least one batch and no batch is longer than the batch size |
| Batching.BatchesCount | main.py:14-25 | an empty input gives one empty batch; otherwise the number of batches is ceil(n / size) |
| Batching.BatchesFull | main.py:15-16 | every batch but the last is the k-th run of `size` elements from the end, reversed |
| Batching.BatchesLast | main.py:17-19 | the last batch is the remaining prefix in its original order |
| Batching.HundredTwentyOrders | main.py:67 | 120 orders are processed as batches of 50, 50 and 20 |
| ShippingCosts.GetSkuAliasList | example_db.py:175-207 | the row loop computes the specified shipping map |
| ShippingCosts.CostMapSpec | example_db.py:195-205 | the keys are exactly the SKUs and aliases of the rows; each holds its first truthy cost, or its last cost when none is truthy |
| ShippingCosts.FirstTruthyWins | example_db.py:202-205 | the first non-null, non-zero cost offered for a key is the one kept |
| ShippingCosts.LastFalsyWins | example_db.py:202-205 | a key offered only null or zero costs keeps the last one offered |
| OrderLoading.LoadPurchaseOrders | example_db.py:85-128 | the row loop computes the specified grouping and SKU list |
| OrderLoading.ReadItems | example_db.py:109-113 | the item loop keeps the item rows in order and appends their SKUs in row order |
| OrderLoading.AddOrderSpec | example_db.py:119-126 | adding an order appends it to its customer's group, creating the group at the end of the dict when it is new; the key list is otherwise unchanged |
| OrderLoading.LoadedValid | example_db.py:119-126 | the grouping is a well-formed insertion-ordered dict and no group is empty |
| OrderLoading.LoadedKeyHasRow | example_db.py:119-126 | every group's customer id is carried by some order row |
| OrderLoading.LoadedRowHasKey | example_db.py:119-126 | every order row's customer id has a group |
| OrderLoading.LoadedKeyRows | example_db.py:91-126 | a group exists if and only if some row carries its customer id |
| OrderLoading.LoadedKeys | example_db.py:91-126 | well-formed dict, groups exactly for the rows' customer ids, no empty group |
| OrderLoading.LoadedKeyIn | example_db.py:91-126 | a customer has a group iff its id is among the rows' customer ids |
| OrderLoading.LoadedKeyOrder | example_db.py:119-126 | the groups are listed in the order their customers first appear in the rows, each once; this is the order in which the run processes the dropshippers |
| OrderLoading.LoadedGroups | example_db.py:91-126 | each group holds exactly its customer's orders, in row order, each with its own item rows |
| OrderLoading.LoadedSkus | example_db.py:111-113 | the SKU list is every item's SKU, order by order, duplicates included |
| OrderLoading.LoadSpec | example_db.py:85-128 | the grouping and SKU-list properties above, together |
| OrderLoading.LoadedFresh | example_db.py:91-126 | no loaded order has amounts or a remote id yet |
| SkuCatalog.GetSkusInCatalog | order_creator.py:192-219 | the drain-and-lookup loop computes the specified resolution over the 50-SKU batches |
| SkuCatalog.CatalogIndex | order_creator.py:195-215 | each lookup asks for at most 50 SKUs and together they ask for the whole list; the resolution fails iff a lookup raises; otherwise the index holds exactly the reported ids, each at its last reported price |
| SkuCatalog.ResolveRaises | order_creator.py:196-219 | the resolution raises if and only if some batch's lookup raises |
| SkuCatalog.ResolveIsAbsorb | order_creator.py:198-215 | a resolution that does not fail stores every reported item in report order |
| SkuCatalog.AbsorbKeys | order_creator.py:210-212 | an id is in the index iff it was already there or some item reports it |
| SkuCatalog.AbsorbLast | order_creator.py:210-212 | an id's last report decides its price |
| SkuCatalog.AbsorbUntouched | order_creator.py:210-212 | an id no item reports keeps its price |
| SkuCatalog.ResolveFault | order_creator.py:217-219 | the only fault the resolution raises is the failed lookup |
| SkuValidation.ValidateSkus | order_creator.py:148-190 | the two loops compute the specified validation |
| SkuValidation.PartitionValid | order_creator.py:156-169 | every item goes to exactly one list; there is no invalid item iff all items are valid, and then the valid list is the items, priced, in order |
| SkuValidation.PartitionReport | order_creator.py:172-182 | the report has one "sku - qty units" line per invalid item, in item order |
| SkuValidation.PartitionMissing | order_creator.py:175-180 | the missing-price flag is set iff some item is in the catalog at a price of zero or less |
| SkuValidation.ValidationSpec | order_creator.py:148-190 | all items valid: they come back priced, in order, with no email; otherwise None and exactly one report listing every invalid item |
| ShippingPricing.CreateSkus | order_creator.py:102-146 | the SKU loop computes the specified pricing, early returns included |
| ShippingPricing.LineItems | order_creator.py:132-139 | one line per item, in order, carrying the item's SKU and quantity, the order's discount and discount type 1 |
| ShippingPricing.PriceWithoutAccount | order_creator.py:128-144 | without a company account, every item gets a line and the total is round(0) |
| ShippingPricing.PriceWithAccount | order_creator.py:118-144 | with a company account and every SKU priced, the total is the rounded sum of cost times quantity |
| ShippingPricing.PriceStops | order_creator.py:119-127 | the first SKU without a shipping entry ends pricing with one email and no lines; a NULL cost raises instead |
| ShippingPricing.PricingSpec | order_creator.py:111-146 | the three pricing outcomes above, together |
| OrderPayload.ReferenceId | order_creator.py:41-50 | the reference id starts with the dropshipper code; it is the PO number iff the PO number already starts with the code, otherwise code + PO number |
| OrderPayload.ReferenceIdIdempotent | order_creator.py:44-50 | deriving the reference id again changes nothing |
| OrderPayload.ShippingDetailsFor | order_creator.py:52-66 | only "UPS Ground" and "FEDEX Ground HD" are mapped, to UPS/UPSGround and Fedex/FedExGround, with the order's shipping fee |
| OrderPayload.CreateOrder | order_creator.py:14-100 | the method computes the specified order build, with `_create_skus` given the arguments its parameters name |
| OrderPayload.SkippedOrders | order_creator.py:20-27 | an order without items is skipped silently; one with an unsellable item is skipped after exactly one missing-parts report |
| OrderPayload.BuiltOrder | order_creator.py:40-98 | a sellable, priceable, non-empty order gives one line per item, the rounded shipping total, a reference id starting with the dropshipper code, and the order's customer, address and details, with no email; an unmapped shipping method raises instead |
| OrderPayload.UnshippableOrder | order_creator.py:116-127 | with a company account, the first item without a shipping entry stops the order after one email; a NULL cost raises |
| OrderPayload.BuiltReference | order_creator.py:81 | a built request carries the order's reference id |
| OrderPayload.BuildOrderAsWritten | order_creator.py:30-38 | as written, the order build never produces a request |
| OrderPayload.AsWrittenRaises | order_creator.py:30-38 | as written, every non-empty order whose items all validate raises the arity error |
| OrderPayload.ArityCounterexample | order_creator.py:30-38 | a concrete order that the corrected build submits and the as-written build rejects |
| WriteBack.UpdatingOrderDataInDb | example_db.py:134-173 | the method computes the specified tuples and the guarded bulk update |
| WriteBack.WriteRowsSpec | example_db.py:143-153 | tuples are built iff every order has a remote id and amounts, one per order, in order; otherwise the first order lacking one raises |
| WriteBack.UpdateOrdersSpec | example_db.py:155-173 | for writable orders, the bulk update gets exactly their tuples and either commits them or sends one email naming the orders |
| WriteBack.WriteRowsStop | example_db.py:145-153 | the first order that cannot be written decides the fault |
| WriteBack.WriteRowsMissingId | example_db.py:145-153 | when every order has amounts, only a missing remote id can raise |
| BatchController.IndexOf | main.py:72 | `list.index`: the first position holding the value |
| BatchController.IndexOfFresh | main.py:70-72 | the order being processed sits right after the orders already kept |
| BatchController.SubmitOneKeeps | main.py:80-113 | each order is either dropped or appended after the kept orders; the appended element is that order, with the amounts of its built request set and only its remote id possibly changed |
| BatchController.SubmitRaised | main.py:69-113 | once an order raises, the orders after it are not processed |
| BatchController.SubmitOrder | main.py:72-113 | handling the order at its position changes the list and the duplicate record exactly as one step of the batch loop specifies |
| BatchController.SubmitNext | main.py:70-113 | one pass of the loop extends the loop's account of the batch by one order, or ends it with the fault |
| BatchController.SubmitOrders | main.py:69-113 | the batch loop over a snapshot of the batch computes the specified kept orders, duplicates and emails |
| BatchController.SoundUploaded | main.py:101-106 | keeping a created order with its remote id keeps the duplicate record consistent |
| BatchController.SoundDuplicate | main.py:91-99 | recording a duplicate under its reference id at its position keeps the duplicate record consistent |
| BatchController.SubmitOneSound | main.py:72-113 | one order step keeps the duplicate record consistent and adds at most one order |
| BatchController.SubmitSound | main.py:69-113 | after the batch loop, every recorded index points at a kept order with that reference id and no remote id; every kept order without a remote id is recorded; the list is no longer than the batch |
| BatchController.AttachFails | main.py:130-137 | attaching succeeds iff every echoed reference id was recorded; the first unknown one decides the fault |
| BatchController.AttachSets | main.py:130-137 | attaching only changes remote ids: an order that no item targets is unchanged, and a targeted order takes the id of the last item targeting it |
| BatchController.AttachStop | main.py:131-137 | once attaching raises, later items change nothing |
| BatchController.ResolveDuplicates | main.py:115-145 | no lookup without duplicates; with duplicates, one lookup, its items attached on 200, otherwise one email |
| BatchController.SettleBatch | main.py:115-149 | the duplicate lookup, then the write-back when orders are left |
| BatchController.UploadBatch | main.py:69-149 | one batch: the order loop, then the duplicate lookup and the write-back |
| BatchController.NoDuplicatesBatch | main.py:116-149 | without duplicates, every kept order is writable and the batch ends without a fault, its last event the write-back's when an order is left |
| BatchController.UnresolvedRaises | main.py:139-149 | a recorded duplicate still without a remote id makes the write-back raise a missing-remote-id fault |
| BatchController.FailedLookupSettles | main.py:139-149 | a failed id lookup sends one email naming the reference ids, then the write-back raises on the missing remote id |
| BatchController.FailedLookupRaises | main.py:139-149 | the same for a whole batch, after the order loop's emails |
| BatchController.UnknownEchoSettles | main.py:130-134 | a lookup that echoes an unrecorded reference id raises on the first such id and writes nothing |
| BatchController.UnknownEchoRaises | main.py:130-134 | the same for a whole batch, after the order loop's emails |
| BatchController.ResolvedWritable | main.py:130-137 | a lookup echoing exactly the recorded reference ids gives every kept order a remote id, when reference ids are distinct |
| BatchController.ResolvedBatch | main.py:116-149 | then the batch ends without a fault; its events are the order loop's, then the write-back of every kept order with the remote id the lookup echoed for it (the commit of exactly their tuples, or the error email) |
| BatchController.OverwrittenUntargeted | main.py:91-99 | a kept order whose reference id is recorded at another position (a later duplicate overwrote the record) is targeted by no echoed item |
| BatchController.UnechoedSettles | main.py:115-149 | an answered lookup that echoes only recorded ids but none for a kept order still without a remote id makes the write-back raise on the missing remote id, with no event |
| BatchController.UnechoedRaises | main.py:69-149 | the same for a whole batch, after the order loop's emails |
| BatchController.ResolvedSettles | main.py:115-149 | the same for the settle step alone: the attached orders are all writable and their write-back is its only event |
| Driver.WithCustomer | main.py:54-55 | every order of the group gets the customer record and nothing else changes |
| Driver.SetCustomer | main.py:49-55 | the loop sets the customer record on every order of the group |
| Driver.GroupBatches | main.py:67 | every order in a group's batches has its customer record |
| Driver.ProcessGroup | main.py:69-149 | the batch loop computes the specified sequence of batch outcomes, batch n writing back with the clock's reading for that batch |
| Driver.ProcessDropshipper | main.py:62-67 | one dropshipper: customer record, batches of 50, then the batch loop |
| Driver.ProcessGroups | main.py:62-149 | the groups are processed in the dict's order until the end or the first fault |
| Driver.RunBatchesRaised | main.py:69-149 | once a batch raises, later batches are not processed |
| Driver.RunGroupsRaised | main.py:62-149 | once a group raises, later groups are not processed |
| Driver.RunOnce | main.py:34-151 | the whole run computes the specified outcome and events, with the corrected order build and one clock reading per write-back |
| Driver.CatalogFailureStops | main.py:43-46 | a failed catalog lookup ends the run before any order is built; nothing is sent or written |
| Driver.NoOrders | main.py:43-60 | without order rows nothing is sent or written; the catalog is still asked once, for an empty list |

## Left out

- SQL, pyodbc, connecting, reconnecting and closing: the query results are inputs (`aliasRows`, `orderRows`, `itemQuery`). The bulk update and its commit are one input function that says whether they succeeded.
- HTTP and JSON: every SellerCloud call is a function of its argument in `Remote`. A catalog response that is not OK or has an empty body is `CatalogSkipped`. Any exception of the call or its decoding is `CatalogRaised`.
- Email delivery: an email is an `Event` with the data the body is formatted from, not the formatted text. The missing-parts report keeps its formatted "sku - qty units" lines.
- The tax client built in `OrderCreator.__init__` and the configuration: they are never used by the modelled code.
- `round_to_decimal` is not part of this model: it is the uninterpreted input `round`.
- `strftime`: the timestamp and the order date are already-formatted strings. Each write-back's reading is the input `clock` applied to the customer id and the batch number; nothing relates the readings to each other.
- Driver.RunOnce: models the run with the corrected `_create_skus` call. As written, the run raises at the first order whose items all validate; that behaviour is `OrderPayload.BuildOrderAsWritten` and `OrderPayload.AsWrittenRaises`, and is not threaded through the whole-run model.
- A batch size of zero: `batches_creator` (main.py:8-31) then never ends for a non-empty list, so the batch functions require a positive size. The program only passes 50.
- The top-level exception handler (close, print, error email, re-raise): the model stops at the `Raised` fault it would handle.
- The customer fetch: the source fetches every group's customer before the empty-run check. The model fetches each group's customer when that group is processed. Because the fetch is a function of the customer id and never fails here, the records are the same.
- The customer response is taken to be a well-formed customer record. A response without the expected fields is not modelled.
- `sku_alias_map` is built but never returned, so it is left out. `skus_prices` is always empty, so `OrderAmounts` holds only the shipping total.
- `WholeSalePrice` is taken to be numeric.
- List aliasing: a batch's orders are values. They need not be distinct from each other: `list.index` still finds the current order at its own position, because each already-processed order carries its amounts and the current one does not (`IndexOfFresh`).
- The duplicate record is kept per batch: the source clears it after each batch that has duplicates, and the batches without duplicates leave it empty.
- BatchController.ResolvedWritable: requires the kept orders to have distinct reference ids. With two duplicates under one reference id the second overwrites the first's record, so no echo targets the first order (`OverwrittenUntargeted`), and the batch then raises on its missing remote id (`UnechoedSettles`, `UnechoedRaises`).
- BatchController.ResolvedBatch: requires the lookup to echo exactly the recorded reference ids. A lookup answering only part of them (a page limit) leaves an order no echo targets, and the batch then raises on its missing remote id (`UnechoedSettles`, `UnechoedRaises`).

## Findings

| source | as written | input that shows it | evidently intended | confidence | as-written member | corrected member |
|---|---|---|---|---|---|---|
| order_creator.py:30-38 | `create_order` passes seven positional arguments to `_create_skus`, which declares five (lines 102-109), so the call raises a `TypeError` and no order is ever submitted | any order whose items all validate, e.g. one sellable item, no company account, "UPS Ground" | pass the SKUs, the shipping map, the company-account flag, the discount and the PO number, the five values `_create_skus` names | high, not executed | OrderPayload.BuildOrderAsWritten (exhibited by OrderPayload.ArityCounterexample) | OrderPayload.BuildOrder (proved by OrderPayload.BuiltOrder) |
