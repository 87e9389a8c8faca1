/**
 * The shipping map of `ExampleDb.get_sku_alias_list` (example_db.py:175-207):
 * every row stores its shipping cost under its SKU and then under its
 * alias (a missing alias is the key None), overwriting an entry only while
 * the stored cost is falsy (NULL or zero).
 */
module ShippingCosts {
  import opened Wrappers
  import opened Records

  /** Python truthiness of a `shipping_cost` value: present and non-zero. */
  predicate Truthy(c: ShipCost) {
    c.Some? && c.value != 0.0
  }

  /** `if not sku_shipping_map.get(key): sku_shipping_map[key] = cost`. */
  function Store(m: ShippingMap, key: ShipKey, cost: ShipCost): ShippingMap {
    if key !in m || !Truthy(m[key]) then m[key := cost] else m
  }

  /** One iteration of the row loop: the SKU first, then the alias. */
  function StoreRow(m: ShippingMap, row: AliasRow): ShippingMap {
    Store(Store(m, Some(row.sku), row.shippingCost), row.alias, row.shippingCost)
  }

  /** The map after the rows, in row order. */
  function CostMap(rows: seq<AliasRow>): ShippingMap
    decreases |rows|
  {
    if |rows| == 0 then map[] else StoreRow(CostMap(rows[..|rows| - 1]), rows[|rows| - 1])
  }

  method GetSkuAliasList(rows: seq<AliasRow>) returns (skuShippingMap: ShippingMap)
    ensures skuShippingMap == CostMap(rows)
  {
    skuShippingMap := map[];
    for i := 0 to |rows|
      invariant skuShippingMap == CostMap(rows[..i])
    {
      assert rows[..i + 1][..i] == rows[..i];
      var row := rows[i];
      var sku, alias, shippingCost := row.sku, row.alias, row.shippingCost;
      if Some(sku) !in skuShippingMap || !Truthy(skuShippingMap[Some(sku)]) {
        skuShippingMap := skuShippingMap[Some(sku) := shippingCost];
      }
      if alias !in skuShippingMap || !Truthy(skuShippingMap[alias]) {
        skuShippingMap := skuShippingMap[alias := shippingCost];
      }
    }
    assert rows[..|rows|] == rows;
  }

  /** The costs a row offers for `key`: once as SKU, once as alias. */
  function RowCosts(row: AliasRow, key: ShipKey): seq<ShipCost> {
    (if Some(row.sku) == key then [row.shippingCost] else [])
    + (if row.alias == key then [row.shippingCost] else [])
  }

  /** Every cost offered for `key`, in the order the rows offer them. */
  function Offers(rows: seq<AliasRow>, key: ShipKey): seq<ShipCost>
    decreases |rows|
  {
    if |rows| == 0 then [] else Offers(rows[..|rows| - 1], key) + RowCosts(rows[|rows| - 1], key)
  }

  /** The first truthy cost, or the last one when none is truthy. */
  function Settled(costs: seq<ShipCost>): ShipCost
    requires |costs| > 0
    decreases |costs|
  {
    if |costs| == 1 || Truthy(costs[0]) then costs[0] else Settled(costs[1..])
  }

  /** Settled is truthy exactly when some cost is. */
  lemma {:induction false} SettledTruthy(costs: seq<ShipCost>)
    requires |costs| > 0
    ensures Truthy(Settled(costs)) <==> exists i :: 0 <= i < |costs| && Truthy(costs[i])
    decreases |costs|
  {
    if |costs| > 1 && !Truthy(costs[0]) {
      SettledTruthy(costs[1..]);
      if exists i :: 0 <= i < |costs| && Truthy(costs[i]) {
        var i :| 0 <= i < |costs| && Truthy(costs[i]);
        assert costs[1..][i - 1] == costs[i];
      }
      if exists i :: 0 <= i < |costs[1..]| && Truthy(costs[1..][i]) {
        var i :| 0 <= i < |costs[1..]| && Truthy(costs[1..][i]);
        assert costs[i + 1] == costs[1..][i];
      }
    }
  }

  /** Appending costs changes the settled cost only while it is falsy. */
  lemma {:induction false} SettledAppend(a: seq<ShipCost>, b: seq<ShipCost>)
    requires |a| > 0 && |b| > 0
    ensures Settled(a + b) == if Truthy(Settled(a)) then Settled(a) else Settled(b)
    decreases |a|
  {
    assert (a + b)[0] == a[0];
    if |a| > 1 && !Truthy(a[0]) {
      assert (a + b)[1..] == a[1..] + b;
      SettledAppend(a[1..], b);
    } else if |a| == 1 && !Truthy(a[0]) {
      assert (a + b)[1..] == b;
    }
  }

  lemma {:induction false} StoreRowSettles(m: ShippingMap, row: AliasRow, key: ShipKey, before: seq<ShipCost>)
    requires key in m <==> |before| > 0
    requires key in m ==> m[key] == Settled(before)
    ensures var after := before + RowCosts(row, key);
      && (key in StoreRow(m, row) <==> |after| > 0)
      && (key in StoreRow(m, row) ==> StoreRow(m, row)[key] == Settled(after))
  {
    var costs := RowCosts(row, key);
    if |costs| > 0 {
      if |before| > 0 {
        SettledAppend(before, costs);
      } else {
        assert before + costs == costs;
      }
      if |costs| == 2 {
        assert Settled(costs) == row.shippingCost;
      }
    } else {
      assert before + costs == before;
    }
  }

  /**
   * The map's keys are exactly the SKUs and aliases the rows carry (a
   * missing alias as None), and each holds the first truthy cost offered
   * for it, or the last cost offered when none is truthy.
   */
  lemma {:induction false} CostMapSpec(rows: seq<AliasRow>, key: ShipKey)
    ensures key in CostMap(rows) <==> |Offers(rows, key)| > 0
    ensures |Offers(rows, key)| > 0 <==>
      exists i :: 0 <= i < |rows| && (Some(rows[i].sku) == key || rows[i].alias == key)
    ensures key in CostMap(rows) ==> CostMap(rows)[key] == Settled(Offers(rows, key))
    decreases |rows|
  {
    if |rows| > 0 {
      var prefix := rows[..|rows| - 1];
      var row := rows[|rows| - 1];
      CostMapSpec(prefix, key);
      StoreRowSettles(CostMap(prefix), row, key, Offers(prefix, key));
      if exists i :: 0 <= i < |prefix| && (Some(prefix[i].sku) == key || prefix[i].alias == key) {
        var i :| 0 <= i < |prefix| && (Some(prefix[i].sku) == key || prefix[i].alias == key);
        assert rows[i] == prefix[i];
      }
      if exists i :: 0 <= i < |rows| && (Some(rows[i].sku) == key || rows[i].alias == key) {
        var i :| 0 <= i < |rows| && (Some(rows[i].sku) == key || rows[i].alias == key);
        if i < |prefix| {
          assert rows[i] == prefix[i];
        }
      }
    }
  }

  /** A SKU or alias that is seen only with falsy costs keeps the last of them. */
  lemma LastFalsyWins(rows: seq<AliasRow>, key: ShipKey)
    requires |Offers(rows, key)| > 0
    requires forall c :: c in Offers(rows, key) ==> !Truthy(c)
    ensures key in CostMap(rows) && CostMap(rows)[key] == Offers(rows, key)[|Offers(rows, key)| - 1]
  {
    CostMapSpec(rows, key);
    SettledAllFalsy(Offers(rows, key));
  }

  lemma {:induction false} SettledAllFalsy(costs: seq<ShipCost>)
    requires |costs| > 0
    requires forall c :: c in costs ==> !Truthy(c)
    ensures Settled(costs) == costs[|costs| - 1]
    decreases |costs|
  {
    if |costs| > 1 {
      assert costs[0] in costs;
      assert forall c :: c in costs[1..] ==> c in costs;
      SettledAllFalsy(costs[1..]);
    }
  }

  lemma {:induction false} SettledFirstTruthy(costs: seq<ShipCost>, i: nat)
    requires i < |costs| && Truthy(costs[i])
    requires forall j :: 0 <= j < i ==> !Truthy(costs[j])
    ensures Settled(costs) == costs[i]
    decreases |costs|
  {
    if i > 0 {
      assert !Truthy(costs[0]);
      assert forall j :: 0 <= j < i - 1 ==> costs[1..][j] == costs[j + 1];
      SettledFirstTruthy(costs[1..], i - 1);
    }
  }

  /** The first truthy cost offered for a SKU or alias is the one it keeps. */
  lemma FirstTruthyWins(rows: seq<AliasRow>, key: ShipKey, i: nat)
    requires i < |Offers(rows, key)| && Truthy(Offers(rows, key)[i])
    requires forall j :: 0 <= j < i ==> !Truthy(Offers(rows, key)[j])
    ensures key in CostMap(rows) && CostMap(rows)[key] == Offers(rows, key)[i]
  {
    CostMapSpec(rows, key);
    SettledFirstTruthy(Offers(rows, key), i);
  }
}
