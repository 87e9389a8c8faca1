/**
 * The row-to-structure part of `ExampleDb.load_purchase_orders_not_in_sellercloud`
 * (example_db.py:85-128): each order row gets its item rows, the orders
 * are grouped by remote customer id in a dict that keeps first-appearance
 * order, and every item's SKU is appended to the run's SKU list.
 * The item query is the parameter `itemQuery` (purchase order id -> item rows).
 */
module OrderLoading {
  import opened Wrappers
  import opened Records
  import opened Dicts
  import opened Batching

  /** `orders_by_dropshipper`: remote customer id -> that dropshipper's orders. */
  type Groups = Dict<CustomerId, seq<PurchaseOrder>>

  /** A loaded order: its row and item rows; nothing else is set yet. */
  function Loaded(row: OrderRow, items: seq<OrderItem>): PurchaseOrder {
    PurchaseOrder(row, items, None, None, None)
  }

  /** The SKUs of item rows, in row order (`row[0]` of each). */
  function SkusOf(items: seq<OrderItem>): (r: seq<Sku>)
    ensures |r| == |items|
    ensures forall i :: 0 <= i < |items| ==> r[i] == items[i].sku
    decreases |items|
  {
    if |items| == 0 then [] else SkusOf(items[..|items| - 1]) + [items[|items| - 1].sku]
  }

  /** Put the order in its group, creating the group while it is missing or empty. */
  function AddOrder(groups: Groups, po: PurchaseOrder): Groups {
    var k := po.row.customerId;
    var g := if k !in groups.entries || |groups.entries[k]| == 0 then Put(groups, k, []) else groups;
    Put(g, k, g.entries[k] + [po])
  }

  /** The grouping and the SKU list after the given order rows. */
  function Load(rows: seq<OrderRow>, itemQuery: int -> seq<OrderItem>): (Groups, seq<Sku>)
    decreases |rows|
  {
    if |rows| == 0 then (Empty(), [])
    else
      var (groups, skus) := Load(rows[..|rows| - 1], itemQuery);
      var row := rows[|rows| - 1];
      var items := itemQuery(row.id);
      (AddOrder(groups, Loaded(row, items)), skus + SkusOf(items))
  }

  method LoadPurchaseOrders(rows: seq<OrderRow>, itemQuery: int -> seq<OrderItem>)
    returns (ordersByDropshipper: Groups, skusInBatch: seq<Sku>)
    ensures (ordersByDropshipper, skusInBatch) == Load(rows, itemQuery)
  {
    ordersByDropshipper := Empty();
    skusInBatch := [];
    for i := 0 to |rows|
      invariant (ordersByDropshipper, skusInBatch) == Load(rows[..i], itemQuery)
    {
      assert rows[..i + 1][..i] == rows[..i];
      var po := rows[i];
      var itemRows := itemQuery(po.id);
      var poItems, itemSkus := ReadItems(itemRows);
      skusInBatch := skusInBatch + itemSkus;
      var order := Loaded(po, poItems);
      var id := po.customerId;
      if id !in ordersByDropshipper.entries || |ordersByDropshipper.entries[id]| == 0 {
        ordersByDropshipper := Put(ordersByDropshipper, id, []);
      }
      ordersByDropshipper := Put(ordersByDropshipper, id, ordersByDropshipper.entries[id] + [order]);
    }
    assert rows[..|rows|] == rows;
  }

  /** The inner loop over one order's item rows: the items, and their SKUs in row order. */
  method ReadItems(itemRows: seq<OrderItem>) returns (poItems: seq<OrderItem>, skus: seq<Sku>)
    ensures poItems == itemRows
    ensures skus == SkusOf(itemRows)
  {
    poItems, skus := [], [];
    for j := 0 to |itemRows|
      invariant poItems == itemRows[..j]
      invariant skus == SkusOf(itemRows[..j])
    {
      assert itemRows[..j + 1][..j] == itemRows[..j];
      poItems := poItems + [itemRows[j]];
      skus := skus + [itemRows[j].sku];
    }
    assert itemRows[..|itemRows|] == itemRows;
  }

  /** Every loaded order, in row order, as an independent reference. */
  function AllOrders(rows: seq<OrderRow>, itemQuery: int -> seq<OrderItem>): (r: seq<PurchaseOrder>)
    ensures |r| == |rows|
  {
    seq(|rows|, i requires 0 <= i < |rows| => Loaded(rows[i], itemQuery(rows[i].id)))
  }

  /** The orders of customer `k`, in their original order. */
  function OrdersOf(orders: seq<PurchaseOrder>, k: CustomerId): seq<PurchaseOrder>
    decreases |orders|
  {
    if |orders| == 0 then []
    else OrdersOf(orders[..|orders| - 1], k) + (if orders[|orders| - 1].row.customerId == k then [orders[|orders| - 1]] else [])
  }

  lemma {:induction false} OrdersOfEmpty(orders: seq<PurchaseOrder>, k: CustomerId)
    requires forall i :: 0 <= i < |orders| ==> orders[i].row.customerId != k
    ensures OrdersOf(orders, k) == []
    decreases |orders|
  {
    if |orders| > 0 {
      OrdersOfEmpty(orders[..|orders| - 1], k);
    }
  }

  /** The SKU lists of every order's items, one list per order row. */
  function ItemSkus(rows: seq<OrderRow>, itemQuery: int -> seq<OrderItem>): (r: seq<seq<Sku>>)
    ensures |r| == |rows|
  {
    seq(|rows|, i requires 0 <= i < |rows| => SkusOf(itemQuery(rows[i].id)))
  }

  lemma {:induction false} FlattenSnoc<T>(ss: seq<seq<T>>, s: seq<T>)
    ensures Flatten(ss + [s]) == Flatten(ss) + s
    decreases |ss|
  {
    if |ss| == 0 {
      assert Flatten([s]) == s + Flatten([]);
    } else {
      assert (ss + [s])[1..] == ss[1..] + [s];
      FlattenSnoc(ss[1..], s);
    }
  }

  /** The SKU list is every item's SKU, order by order, duplicates included. */
  lemma {:induction false} LoadedSkus(rows: seq<OrderRow>, itemQuery: int -> seq<OrderItem>)
    ensures Load(rows, itemQuery).1 == Flatten(ItemSkus(rows, itemQuery))
    decreases |rows|
  {
    if |rows| > 0 {
      var prefix := rows[..|rows| - 1];
      var row := rows[|rows| - 1];
      LoadedSkus(prefix, itemQuery);
      assert ItemSkus(rows, itemQuery) == ItemSkus(prefix, itemQuery) + [SkusOf(itemQuery(row.id))];
      FlattenSnoc(ItemSkus(prefix, itemQuery), SkusOf(itemQuery(row.id)));
    }
  }

  /** Adding an order appends it to its customer's group (a new group goes last) and keeps the dict valid. */
  lemma AddOrderSpec(groups: Groups, po: PurchaseOrder)
    requires Valid(groups)
    ensures var k := po.row.customerId;
      var r := AddOrder(groups, po);
      && Valid(r)
      && r.entries == groups.entries[k := (if k in groups.entries then groups.entries[k] else []) + [po]]
      && r.keys == if k in groups.entries then groups.keys else groups.keys + [k]
  {
    var k := po.row.customerId;
    var g := if k !in groups.entries || |groups.entries[k]| == 0 then Put(groups, k, []) else groups;
    PutValid(groups, k, []);
    PutValid(g, k, g.entries[k] + [po]);
    if k in groups.entries && |groups.entries[k]| == 0 {
      assert groups.entries[k] + [po] == [po];
    }
  }

  /** One more order row adds its order to the grouping and its SKUs to the list. */
  lemma LoadStep(rows: seq<OrderRow>, itemQuery: int -> seq<OrderItem>)
    requires |rows| > 0
    ensures var prefix := rows[..|rows| - 1];
      var row := rows[|rows| - 1];
      Load(rows, itemQuery).0 == AddOrder(Load(prefix, itemQuery).0, Loaded(row, itemQuery(row.id)))
    ensures var all := AllOrders(rows, itemQuery);
      && all[..|all| - 1] == AllOrders(rows[..|rows| - 1], itemQuery)
      && all[|all| - 1] == Loaded(rows[|rows| - 1], itemQuery(rows[|rows| - 1].id))
  {
    var all := AllOrders(rows, itemQuery);
    assert all[..|all| - 1] == AllOrders(rows[..|rows| - 1], itemQuery);
  }

  /** The grouping is a valid dict and no group is empty. */
  lemma {:induction false} LoadedValid(rows: seq<OrderRow>, itemQuery: int -> seq<OrderItem>)
    ensures var groups := Load(rows, itemQuery).0;
      && Valid(groups)
      && (forall k :: k in groups.entries ==> |groups.entries[k]| > 0)
    decreases |rows|
  {
    if |rows| > 0 {
      var prefix := rows[..|rows| - 1];
      var row := rows[|rows| - 1];
      LoadedValid(prefix, itemQuery);
      LoadStep(rows, itemQuery);
      AddOrderSpec(Load(prefix, itemQuery).0, Loaded(row, itemQuery(row.id)));
    }
  }

  /** Adding an order adds exactly its customer id to the keys. */
  lemma AddOrderKeys(groups: Groups, po: PurchaseOrder)
    requires Valid(groups)
    ensures forall k :: k in AddOrder(groups, po).entries <==> k in groups.entries || k == po.row.customerId
  {
    AddOrderSpec(groups, po);
  }

  /** Every group's id is carried by some row. */
  lemma {:induction false} LoadedKeyHasRow(rows: seq<OrderRow>, itemQuery: int -> seq<OrderItem>, k: CustomerId)
    requires k in Load(rows, itemQuery).0.entries
    ensures exists i :: 0 <= i < |rows| && rows[i].customerId == k
    decreases |rows|
  {
    assert |rows| > 0;
    var prefix := rows[..|rows| - 1];
    LoadStep(rows, itemQuery);
    LoadedValid(prefix, itemQuery);
    AddOrderKeys(Load(prefix, itemQuery).0, Loaded(rows[|rows| - 1], itemQuery(rows[|rows| - 1].id)));
    if k == rows[|rows| - 1].customerId {
      assert rows[|rows| - 1].customerId == k;
    } else {
      LoadedKeyHasRow(prefix, itemQuery, k);
      var i :| 0 <= i < |prefix| && prefix[i].customerId == k;
      assert rows[i].customerId == k;
    }
  }

  /** Every row's id has a group. */
  lemma {:induction false} LoadedRowHasKey(rows: seq<OrderRow>, itemQuery: int -> seq<OrderItem>, i: nat)
    requires i < |rows|
    ensures rows[i].customerId in Load(rows, itemQuery).0.entries
    decreases |rows|
  {
    var prefix := rows[..|rows| - 1];
    LoadStep(rows, itemQuery);
    LoadedValid(prefix, itemQuery);
    AddOrderKeys(Load(prefix, itemQuery).0, Loaded(rows[|rows| - 1], itemQuery(rows[|rows| - 1].id)));
    if i < |prefix| {
      LoadedRowHasKey(prefix, itemQuery, i);
      assert prefix[i] == rows[i];
    }
  }

  /** A group exists iff some row carries its id. */
  lemma LoadedKeyRows(rows: seq<OrderRow>, itemQuery: int -> seq<OrderItem>)
    ensures var groups := Load(rows, itemQuery).0;
      forall k :: k in groups.entries <==> exists i :: 0 <= i < |rows| && rows[i].customerId == k
  {
    forall k | k in Load(rows, itemQuery).0.entries
      ensures exists i :: 0 <= i < |rows| && rows[i].customerId == k
    {
      LoadedKeyHasRow(rows, itemQuery, k);
    }
    forall k | exists i :: 0 <= i < |rows| && rows[i].customerId == k
      ensures k in Load(rows, itemQuery).0.entries
    {
      var i :| 0 <= i < |rows| && rows[i].customerId == k;
      LoadedRowHasKey(rows, itemQuery, i);
    }
  }

  /** A group exists iff some row carries its id; no group is empty; each key is listed once. */
  lemma LoadedKeys(rows: seq<OrderRow>, itemQuery: int -> seq<OrderItem>)
    ensures var groups := Load(rows, itemQuery).0;
      && Valid(groups)
      && (forall k :: k in groups.entries <==> exists i :: 0 <= i < |rows| && rows[i].customerId == k)
      && (forall k :: k in groups.entries ==> |groups.entries[k]| > 0)
  {
    LoadedValid(rows, itemQuery);
    LoadedKeyRows(rows, itemQuery);
  }

  /** A customer without a group has no loaded orders. */
  lemma NoGroupNoOrders(rows: seq<OrderRow>, itemQuery: int -> seq<OrderItem>, k: CustomerId)
    requires k !in Load(rows, itemQuery).0.entries
    ensures OrdersOf(AllOrders(rows, itemQuery), k) == []
  {
    LoadedKeyRows(rows, itemQuery);
    var all := AllOrders(rows, itemQuery);
    forall i | 0 <= i < |all|
      ensures all[i].row.customerId != k
    {
      assert rows[i].customerId != k;
    }
    OrdersOfEmpty(all, k);
  }

  /** The rows' customer ids, in row order. */
  function CustomerIds(rows: seq<OrderRow>): (r: seq<CustomerId>)
    ensures |r| == |rows|
  {
    seq(|rows|, i requires 0 <= i < |rows| => rows[i].customerId)
  }

  /** The distinct elements of `s`, each where it first appears. */
  function FirstAppearances<T(==)>(s: seq<T>): seq<T>
    decreases |s|
  {
    if |s| == 0 then []
    else
      var last := s[|s| - 1];
      FirstAppearances(s[..|s| - 1]) + (if last in s[..|s| - 1] then [] else [last])
  }

  /** A customer has a group iff its id is among the rows' customer ids. */
  lemma LoadedKeyIn(rows: seq<OrderRow>, itemQuery: int -> seq<OrderItem>, k: CustomerId)
    ensures k in Load(rows, itemQuery).0.entries <==> k in CustomerIds(rows)
  {
    var ids := CustomerIds(rows);
    if k in Load(rows, itemQuery).0.entries {
      LoadedKeyHasRow(rows, itemQuery, k);
      var i :| 0 <= i < |rows| && rows[i].customerId == k;
      assert ids[i] == k;
    }
    if k in ids {
      var i :| 0 <= i < |ids| && ids[i] == k;
      LoadedRowHasKey(rows, itemQuery, i);
    }
  }

  /**
   * The groups are listed in the order their customers first appear in the
   * rows: the order in which the run processes the dropshippers.
   */
  lemma {:induction false} LoadedKeyOrder(rows: seq<OrderRow>, itemQuery: int -> seq<OrderItem>)
    ensures Load(rows, itemQuery).0.keys == FirstAppearances(CustomerIds(rows))
    decreases |rows|
  {
    if |rows| > 0 {
      var prefix := rows[..|rows| - 1];
      var ids := CustomerIds(rows);
      assert ids[..|ids| - 1] == CustomerIds(prefix);
      LoadedKeyOrder(prefix, itemQuery);
      LoadStep(rows, itemQuery);
      LoadedValid(prefix, itemQuery);
      AddOrderSpec(Load(prefix, itemQuery).0, Loaded(rows[|rows| - 1], itemQuery(rows[|rows| - 1].id)));
      LoadedKeyIn(prefix, itemQuery, rows[|rows| - 1].customerId);
    }
  }

  /** Each group holds its customer's orders in load order, each with its own item rows. */
  lemma {:induction false} LoadedGroups(rows: seq<OrderRow>, itemQuery: int -> seq<OrderItem>, k: CustomerId)
    requires k in Load(rows, itemQuery).0.entries
    ensures Load(rows, itemQuery).0.entries[k] == OrdersOf(AllOrders(rows, itemQuery), k)
    decreases |rows|
  {
    assert |rows| > 0;
    var prefix := rows[..|rows| - 1];
    var groups := Load(prefix, itemQuery).0;
    var po := Loaded(rows[|rows| - 1], itemQuery(rows[|rows| - 1].id));
    var all := AllOrders(rows, itemQuery);
    LoadStep(rows, itemQuery);
    LoadedValid(prefix, itemQuery);
    AddOrderEntry(groups, po, k);
    assert OrdersOf(all, k) == OrdersOf(AllOrders(prefix, itemQuery), k) + (if po.row.customerId == k then [po] else []);
    if k in groups.entries {
      LoadedGroups(prefix, itemQuery, k);
    } else {
      NoGroupNoOrders(prefix, itemQuery, k);
    }
  }

  /** The group of `k` after adding an order: the old group, then the order if it is `k`'s. */
  lemma AddOrderEntry(groups: Groups, po: PurchaseOrder, k: CustomerId)
    requires Valid(groups)
    requires k in AddOrder(groups, po).entries
    ensures AddOrder(groups, po).entries[k]
      == (if k in groups.entries then groups.entries[k] else []) + (if po.row.customerId == k then [po] else [])
  {
    AddOrderSpec(groups, po);
  }

  /**
   * Every loaded order is in exactly the group of its customer id, and the
   * run's SKU list is every item's SKU: the properties above together.
   */
  lemma LoadSpec(rows: seq<OrderRow>, itemQuery: int -> seq<OrderItem>)
    ensures var (groups, skus) := Load(rows, itemQuery);
      && Valid(groups)
      && (forall k :: k in groups.entries <==> exists i :: 0 <= i < |rows| && rows[i].customerId == k)
      && (forall k :: k in groups.entries ==> groups.entries[k] == OrdersOf(AllOrders(rows, itemQuery), k))
      && skus == Flatten(ItemSkus(rows, itemQuery))
  {
    LoadedSkus(rows, itemQuery);
    LoadedKeys(rows, itemQuery);
    forall k | k in Load(rows, itemQuery).0.entries
      ensures Load(rows, itemQuery).0.entries[k] == OrdersOf(AllOrders(rows, itemQuery), k)
    {
      LoadedGroups(rows, itemQuery, k);
    }
  }

  /** A loaded order has no amounts and no remote id yet. */
  predicate Fresh(order: PurchaseOrder) {
    order.amounts.None? && order.remoteId.None?
  }

  /** Every grouped order is fresh. */
  lemma {:induction false} LoadedFresh(rows: seq<OrderRow>, itemQuery: int -> seq<OrderItem>)
    ensures var groups := Load(rows, itemQuery).0;
      forall k, o :: k in groups.entries && o in groups.entries[k] ==> Fresh(o)
    decreases |rows|
  {
    if |rows| > 0 {
      var prefix := rows[..|rows| - 1];
      var row := rows[|rows| - 1];
      LoadedFresh(prefix, itemQuery);
      LoadedKeys(prefix, itemQuery);
      AddOrderSpec(Load(prefix, itemQuery).0, Loaded(row, itemQuery(row.id)));
    }
  }
}
