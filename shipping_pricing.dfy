/**
 * `OrderCreator._create_skus` (order_creator.py:102-146), by its own
 * signature: the payload's line items and the order's shipping total.
 * With a company shipping account every SKU must be in the shipping map,
 * and the total is the sum of cost times quantity; without one the total
 * is zero. The total passes through `round_to_decimal` (here `round`).
 */
module ShippingPricing {
  import opened Wrappers
  import opened Records

  /** `DiscountType` 1: the discount value is a percentage off. */
  const PercentOff: int := 1

  /** What `_create_skus` returns when it does not return (None, None). */
  datatype PricedOrder = PricedOrder(products: seq<LineItem>, amounts: OrderAmounts)

  function LineFor(item: PricedItem, discount: real): LineItem {
    LineItem(item.sku, item.quantity, discount, PercentOff)
  }

  /** An item's shipping charge: its cost times its quantity. */
  function Charge(cost: real, quantity: int): real {
    cost * quantity as real
  }

  /** The loop from `skus` onwards, given the running `shipping_total` and `sku_objs`. */
  function PriceFrom(skus: seq<PricedItem>, shipMap: ShippingMap, ships: bool, discount: real,
                     poNumber: string, round: Rounding, total: real, lines: seq<LineItem>)
    : Traced<Option<PricedOrder>>
    decreases |skus|
  {
    if |skus| == 0 then Traced(Done(Some(PricedOrder(lines, OrderAmounts(round(total))))), [])
    else
      var item := skus[0];
      var line := LineFor(item, discount);
      if ships then
        if Some(item.sku) !in shipMap then
          Traced(Done(None), [ShippingCostError(poNumber, item.sku)])
        else if shipMap[Some(item.sku)].None? then
          Traced(Raised(NullShippingCost(item.sku)), [])
        else
          var cost := shipMap[Some(item.sku)].value;
          PriceFrom(skus[1..], shipMap, ships, discount, poNumber, round, total + Charge(cost, item.quantity), lines + [line])
      else
        PriceFrom(skus[1..], shipMap, ships, discount, poNumber, round, 0.0, lines + [line])
  }

  /** `_create_skus(skus, sku_shipping_map, ships_with_company_account, discount, purchase_order_number)`. */
  function Pricing(skus: seq<PricedItem>, shipMap: ShippingMap, ships: bool, discount: real,
                   poNumber: string, round: Rounding): Traced<Option<PricedOrder>>
  {
    PriceFrom(skus, shipMap, ships, discount, poNumber, round, 0.0, [])
  }

  method CreateSkus(skus: seq<PricedItem>, shipMap: ShippingMap, ships: bool, discount: real,
                    poNumber: string, round: Rounding)
    returns (r: Outcome<Option<PricedOrder>>, events: seq<Event>)
    ensures Traced(r, events) == Pricing(skus, shipMap, ships, discount, poNumber, round)
  {
    var shippingTotal := 0.0;
    var skuObjs: seq<LineItem> := [];
    for i := 0 to |skus|
      invariant PriceFrom(skus[i..], shipMap, ships, discount, poNumber, round, shippingTotal, skuObjs)
             == Pricing(skus, shipMap, ships, discount, poNumber, round)
    {
      assert skus[i..][1..] == skus[i + 1..];
      assert skus[i..][0] == skus[i];
      var item := skus[i];
      if ships {
        if Some(item.sku) !in shipMap {
          return Done(None), [ShippingCostError(poNumber, item.sku)];
        }
        var cost := shipMap[Some(item.sku)];
        if cost.None? {
          return Raised(NullShippingCost(item.sku)), [];
        }
        shippingTotal := shippingTotal + Charge(cost.value, item.quantity);
      } else {
        shippingTotal := 0.0;
      }
      skuObjs := skuObjs + [LineFor(item, discount)];
    }
    return Done(Some(PricedOrder(skuObjs, OrderAmounts(round(shippingTotal))))), [];
  }

  /** The SKU has a shipping-map entry with a non-null cost. */
  predicate Shippable(shipMap: ShippingMap, item: PricedItem) {
    Some(item.sku) in shipMap && shipMap[Some(item.sku)].Some?
  }

  /** One line per item, in item order, each with the order's discount as a percentage. */
  function LineItems(skus: seq<PricedItem>, discount: real): (r: seq<LineItem>)
    ensures |r| == |skus|
    ensures forall i :: 0 <= i < |skus| ==>
      r[i] == LineItem(skus[i].sku, skus[i].quantity, discount, PercentOff)
    decreases |skus|
  {
    if |skus| == 0 then [] else [LineFor(skus[0], discount)] + LineItems(skus[1..], discount)
  }

  /** The sum of cost times quantity over the items. */
  function ShipSum(skus: seq<PricedItem>, shipMap: ShippingMap): real
    requires forall i :: 0 <= i < |skus| ==> Shippable(shipMap, skus[i])
    decreases |skus|
  {
    if |skus| == 0 then 0.0
    else
      assert Shippable(shipMap, skus[0]);
      assert forall i :: 0 <= i < |skus[1..]| ==> skus[1..][i] == skus[i + 1];
      Charge(shipMap[Some(skus[0].sku)].value, skus[0].quantity) + ShipSum(skus[1..], shipMap)
  }

  lemma {:induction false} PriceWithoutAccount(skus: seq<PricedItem>, shipMap: ShippingMap, discount: real,
                                               poNumber: string, round: Rounding, lines: seq<LineItem>)
    ensures PriceFrom(skus, shipMap, false, discount, poNumber, round, 0.0, lines)
         == Traced(Done(Some(PricedOrder(lines + LineItems(skus, discount), OrderAmounts(round(0.0))))), [])
    decreases |skus|
  {
    if |skus| == 0 {
      assert lines + LineItems(skus, discount) == lines;
    } else {
      var line := LineFor(skus[0], discount);
      PriceWithoutAccount(skus[1..], shipMap, discount, poNumber, round, lines + [line]);
      assert lines + LineItems(skus, discount) == (lines + [line]) + LineItems(skus[1..], discount);
    }
  }

  lemma {:induction false} PriceWithAccount(skus: seq<PricedItem>, shipMap: ShippingMap, discount: real,
                                            poNumber: string, round: Rounding, total: real, lines: seq<LineItem>)
    requires forall i :: 0 <= i < |skus| ==> Shippable(shipMap, skus[i])
    ensures PriceFrom(skus, shipMap, true, discount, poNumber, round, total, lines)
         == Traced(Done(Some(PricedOrder(lines + LineItems(skus, discount), OrderAmounts(round(total + ShipSum(skus, shipMap)))))), [])
    decreases |skus|
  {
    if |skus| == 0 {
      assert lines + LineItems(skus, discount) == lines;
    } else {
      assert Shippable(shipMap, skus[0]);
      var cost := shipMap[Some(skus[0].sku)].value;
      var line := LineFor(skus[0], discount);
      assert forall i :: 0 <= i < |skus[1..]| ==> skus[1..][i] == skus[i + 1];
      PriceWithAccount(skus[1..], shipMap, discount, poNumber, round,
                       total + Charge(cost, skus[0].quantity), lines + [line]);
      assert ShipSum(skus, shipMap) == Charge(cost, skus[0].quantity) + ShipSum(skus[1..], shipMap);
      assert lines + LineItems(skus, discount) == (lines + [line]) + LineItems(skus[1..], discount);
    }
  }

  lemma {:induction false} PriceStops(skus: seq<PricedItem>, shipMap: ShippingMap, discount: real,
                                      poNumber: string, round: Rounding, total: real, lines: seq<LineItem>, k: nat)
    requires k < |skus| && !Shippable(shipMap, skus[k])
    requires forall i :: 0 <= i < k ==> Shippable(shipMap, skus[i])
    ensures PriceFrom(skus, shipMap, true, discount, poNumber, round, total, lines)
         == if Some(skus[k].sku) in shipMap then Traced(Raised(NullShippingCost(skus[k].sku)), [])
            else Traced(Done(None), [ShippingCostError(poNumber, skus[k].sku)])
    decreases |skus|
  {
    if k > 0 {
      assert Shippable(shipMap, skus[0]);
      assert skus[1..][k - 1] == skus[k];
      assert forall i :: 0 <= i < k - 1 ==> skus[1..][i] == skus[i + 1];
      var total' := total + Charge(shipMap[Some(skus[0].sku)].value, skus[0].quantity);
      var lines' := lines + [LineFor(skus[0], discount)];
      PriceStops(skus[1..], shipMap, discount, poNumber, round, total', lines', k - 1);
    }
  }

  /**
   * Without a company shipping account the total is round(0). With one,
   * if every SKU has a cost the total is the rounded sum of cost times
   * quantity; otherwise the first SKU without an entry ends pricing with
   * no line list and exactly one email (a NULL cost raises instead).
   * Whenever lines are produced there is one per item, in order, with the
   * order's discount and discount type 1.
   */
  lemma PricingSpec(skus: seq<PricedItem>, shipMap: ShippingMap, ships: bool, discount: real,
                    poNumber: string, round: Rounding)
    ensures !ships ==>
      (Pricing(skus, shipMap, ships, discount, poNumber, round)
       == Traced(Done(Some(PricedOrder(LineItems(skus, discount), OrderAmounts(round(0.0))))), []))
    ensures ships && (forall i :: 0 <= i < |skus| ==> Shippable(shipMap, skus[i])) ==>
      (Pricing(skus, shipMap, ships, discount, poNumber, round)
       == Traced(Done(Some(PricedOrder(LineItems(skus, discount), OrderAmounts(round(ShipSum(skus, shipMap)))))), []))
    ensures forall k :: 0 <= k < |skus| && ships && !Shippable(shipMap, skus[k]) &&
                        (forall i :: 0 <= i < k ==> Shippable(shipMap, skus[i])) ==>
      (Pricing(skus, shipMap, ships, discount, poNumber, round)
       == if Some(skus[k].sku) in shipMap then Traced(Raised(NullShippingCost(skus[k].sku)), [])
          else Traced(Done(None), [ShippingCostError(poNumber, skus[k].sku)]))
  {
    if !ships {
      PriceWithoutAccount(skus, shipMap, discount, poNumber, round, []);
      assert [] + LineItems(skus, discount) == LineItems(skus, discount);
    } else {
      if forall i :: 0 <= i < |skus| ==> Shippable(shipMap, skus[i]) {
        PriceWithAccount(skus, shipMap, discount, poNumber, round, 0.0, []);
        assert [] + LineItems(skus, discount) == LineItems(skus, discount);
        assert 0.0 + ShipSum(skus, shipMap) == ShipSum(skus, shipMap);
      }
      forall k | 0 <= k < |skus| && !Shippable(shipMap, skus[k]) && (forall i :: 0 <= i < k ==> Shippable(shipMap, skus[i]))
        ensures Pricing(skus, shipMap, ships, discount, poNumber, round)
          == if Some(skus[k].sku) in shipMap then Traced(Raised(NullShippingCost(skus[k].sku)), [])
             else Traced(Done(None), [ShippingCostError(poNumber, skus[k].sku)])
      {
        PriceStops(skus, shipMap, discount, poNumber, round, 0.0, [], k);
      }
    }
  }
}
