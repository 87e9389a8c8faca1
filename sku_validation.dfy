/**
 * `OrderCreator._validate_skus` (order_creator.py:148-190): split an
 * order's items into those the catalog sells at a positive price and the
 * rest; if any item is invalid, send one missing-parts report and give None.
 */
module SkuValidation {
  import opened Wrappers
  import opened Records
  import opened Text

  /** An item is sellable iff its SKU is in the price index with a price above zero. */
  predicate IsValid(index: map<Sku, real>, item: OrderItem) {
    item.sku in index && index[item.sku] > 0.0
  }

  /** Known to the catalog, but without a usable (positive) price. */
  predicate PriceMissing(index: map<Sku, real>, item: OrderItem) {
    item.sku in index && index[item.sku] <= 0.0
  }

  function Priced(index: map<Sku, real>, item: OrderItem): PricedItem
    requires IsValid(index, item)
  {
    PricedItem(item.sku, item.quantity, index[item.sku])
  }

  /** The first loop: `valid_skus` and `invalid_skus` after the items seen so far. */
  function Partition(items: seq<OrderItem>, index: map<Sku, real>): (seq<PricedItem>, seq<OrderItem>)
    decreases |items|
  {
    if |items| == 0 then ([], [])
    else
      var (valid, invalid) := Partition(items[..|items| - 1], index);
      var item := items[|items| - 1];
      if IsValid(index, item) then (valid + [Priced(index, item)], invalid)
      else (valid, invalid + [item])
  }

  /** One line of the report: "sku - qty units". */
  function ReportLine(item: OrderItem): string {
    item.sku + " - " + IntToString(item.quantity) + " units\n"
  }

  /** The second loop's `skus_str` after the invalid items seen so far. */
  function ReportLines(invalid: seq<OrderItem>): string
    decreases |invalid|
  {
    if |invalid| == 0 then "" else ReportLines(invalid[..|invalid| - 1]) + ReportLine(invalid[|invalid| - 1])
  }

  /** The second loop's `missing_price` after the invalid items seen so far. */
  function AnyPriceMissing(invalid: seq<OrderItem>, index: map<Sku, real>): bool
    decreases |invalid|
  {
    if |invalid| == 0 then false
    else AnyPriceMissing(invalid[..|invalid| - 1], index) || PriceMissing(index, invalid[|invalid| - 1])
  }

  /** `_validate_skus`: the validated items, or None after the report. */
  function Validation(items: seq<OrderItem>, poNumber: string, dropshipperName: string, index: map<Sku, real>)
    : (Option<seq<PricedItem>>, seq<Event>)
  {
    var (valid, invalid) := Partition(items, index);
    if |invalid| > 0 then
      (None, [MissingPartsReport(ReportLines(invalid), poNumber, dropshipperName, AnyPriceMissing(invalid, index))])
    else
      (Some(valid), [])
  }

  method ValidateSkus(items: seq<OrderItem>, poNumber: string, dropshipperName: string, index: map<Sku, real>)
    returns (valid: Option<seq<PricedItem>>, events: seq<Event>)
    ensures (valid, events) == Validation(items, poNumber, dropshipperName, index)
  {
    var validSkus: seq<PricedItem> := [];
    var invalidSkus: seq<OrderItem> := [];
    for i := 0 to |items|
      invariant (validSkus, invalidSkus) == Partition(items[..i], index)
    {
      assert items[..i + 1][..i] == items[..i];
      var item := items[i];
      if IsValid(index, item) {
        validSkus := validSkus + [PricedItem(item.sku, item.quantity, index[item.sku])];
      } else {
        invalidSkus := invalidSkus + [item];
      }
    }
    assert items[..|items|] == items;
    if |invalidSkus| > 0 {
      var skusStr := "";
      var missingPrice := false;
      for j := 0 to |invalidSkus|
        invariant skusStr == ReportLines(invalidSkus[..j])
        invariant missingPrice == AnyPriceMissing(invalidSkus[..j], index)
      {
        assert invalidSkus[..j + 1][..j] == invalidSkus[..j];
        var item := invalidSkus[j];
        if item.sku in index && index[item.sku] <= 0.0 {
          missingPrice := true;
        }
        skusStr := skusStr + ReportLine(item);
      }
      assert invalidSkus[..|invalidSkus|] == invalidSkus;
      return None, [MissingPartsReport(skusStr, poNumber, dropshipperName, missingPrice)];
    }
    return Some(validSkus), [];
  }

  /** The report body defined over the order's items: one line per invalid item, in item order. */
  function ReportFor(items: seq<OrderItem>, index: map<Sku, real>): string
    decreases |items|
  {
    if |items| == 0 then ""
    else
      var item := items[|items| - 1];
      ReportFor(items[..|items| - 1], index) + (if IsValid(index, item) then "" else ReportLine(item))
  }

  lemma {:induction false} PartitionValid(items: seq<OrderItem>, index: map<Sku, real>)
    ensures var (valid, invalid) := Partition(items, index);
      && |valid| + |invalid| == |items|
      && (invalid == [] <==> forall i :: 0 <= i < |items| ==> IsValid(index, items[i]))
      && (invalid == [] ==> forall i :: 0 <= i < |items| ==> IsValid(index, items[i]) && valid[i] == Priced(index, items[i]))
    decreases |items|
  {
    if |items| > 0 {
      var prefix := items[..|items| - 1];
      PartitionValid(prefix, index);
      assert forall i :: 0 <= i < |prefix| ==> prefix[i] == items[i];
    }
  }

  lemma {:induction false} PartitionReport(items: seq<OrderItem>, index: map<Sku, real>)
    ensures ReportLines(Partition(items, index).1) == ReportFor(items, index)
    decreases |items|
  {
    if |items| > 0 {
      var prefix := items[..|items| - 1];
      var item := items[|items| - 1];
      PartitionReport(prefix, index);
      var invalid := Partition(prefix, index).1;
      if !IsValid(index, item) {
        var invalid' := invalid + [item];
        assert invalid'[..|invalid'| - 1] == invalid;
      }
    }
  }

  /** The missing-price flag after one more invalid item. */
  lemma AnyMissingSnoc(invalid: seq<OrderItem>, item: OrderItem, index: map<Sku, real>)
    ensures AnyPriceMissing(invalid + [item], index) == (AnyPriceMissing(invalid, index) || PriceMissing(index, item))
  {
    assert (invalid + [item])[..|invalid|] == invalid;
  }

  /** One more item sets the flag iff the items before it did or it lacks a usable price. */
  lemma PartitionMissingStep(items: seq<OrderItem>, index: map<Sku, real>)
    requires |items| > 0
    ensures AnyPriceMissing(Partition(items, index).1, index)
      == (AnyPriceMissing(Partition(items[..|items| - 1], index).1, index) || PriceMissing(index, items[|items| - 1]))
  {
    var item := items[|items| - 1];
    if !IsValid(index, item) {
      AnyMissingSnoc(Partition(items[..|items| - 1], index).1, item, index);
    }
  }

  /** A set flag names an item known to the catalog without a usable price. */
  lemma {:induction false} PartitionMissingWitness(items: seq<OrderItem>, index: map<Sku, real>)
    requires AnyPriceMissing(Partition(items, index).1, index)
    ensures exists i :: 0 <= i < |items| && PriceMissing(index, items[i])
    decreases |items|
  {
    var prefix := items[..|items| - 1];
    PartitionMissingStep(items, index);
    if PriceMissing(index, items[|items| - 1]) {
      assert PriceMissing(index, items[|items| - 1]);
    } else {
      PartitionMissingWitness(prefix, index);
      var i :| 0 <= i < |prefix| && PriceMissing(index, prefix[i]);
      assert items[i] == prefix[i];
    }
  }

  /** An item known to the catalog without a usable price sets the flag. */
  lemma {:induction false} PartitionMissingFlag(items: seq<OrderItem>, index: map<Sku, real>, i: nat)
    requires i < |items| && PriceMissing(index, items[i])
    ensures AnyPriceMissing(Partition(items, index).1, index)
    decreases |items|
  {
    PartitionMissingStep(items, index);
    if i < |items| - 1 {
      var prefix := items[..|items| - 1];
      assert PriceMissing(index, prefix[i]);
      PartitionMissingFlag(prefix, index, i);
    }
  }

  lemma PartitionMissing(items: seq<OrderItem>, index: map<Sku, real>)
    ensures AnyPriceMissing(Partition(items, index).1, index) <==>
      exists i :: 0 <= i < |items| && PriceMissing(index, items[i])
  {
    if AnyPriceMissing(Partition(items, index).1, index) {
      PartitionMissingWitness(items, index);
    }
    if exists i :: 0 <= i < |items| && PriceMissing(index, items[i]) {
      var i :| 0 <= i < |items| && PriceMissing(index, items[i]);
      PartitionMissingFlag(items, index, i);
    }
  }

  /**
   * Validation gives the items back, in order and priced from the index,
   * iff every item is valid, and then sends nothing. Otherwise it gives
   * None and sends exactly one report listing every invalid item as
   * "sku - qty units" in item order, flagged `missingPrice` iff some item
   * is known to the catalog with a price of zero or less.
   */
  lemma ValidationSpec(items: seq<OrderItem>, poNumber: string, dropshipperName: string, index: map<Sku, real>)
    ensures var (valid, events) := Validation(items, poNumber, dropshipperName, index);
      && (valid.Some? <==> forall i :: 0 <= i < |items| ==> IsValid(index, items[i]))
      && (valid.Some? ==>
            && events == []
            && |valid.value| == |items|
            && forall i :: 0 <= i < |items| ==>
                 IsValid(index, items[i]) && valid.value[i] == PricedItem(items[i].sku, items[i].quantity, index[items[i].sku]))
      && (valid.None? ==>
            events == [MissingPartsReport(ReportFor(items, index), poNumber, dropshipperName,
                         exists i :: 0 <= i < |items| && PriceMissing(index, items[i]))])
  {
    PartitionValid(items, index);
    PartitionReport(items, index);
    PartitionMissing(items, index);
  }
}
