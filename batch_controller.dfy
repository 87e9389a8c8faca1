/**
 * The per-batch loop of `main` (main.py:69-149). Each order of the batch
 * is built and, when built, submitted; the response keeps it (created, or
 * already in the remote system) or removes it with an email. Duplicates
 * are recorded by reference id with their position in the batch, their
 * remote ids are looked up once, and what is left of the batch is written
 * back.
 */
module BatchController {
  import opened Wrappers
  import opened Records
  import opened Text
  import opened Dicts
  import opened OrderPayload
  import opened WriteBack

  /** The run's inputs as one batch sees them; `time` is the clock reading its write-back takes. */
  datatype Context = Context(
    shipMap: ShippingMap,
    index: map<Sku, real>,
    round: Rounding,
    remote: Remote,
    time: Timestamp,
    bulkUpdate: seq<WriteRow> -> bool)

  /** The marker of a create-order response for an order the remote system already has. */
  const AlreadyExists: string := "already exists"

  /** The batch list once every order is processed, and `orders_in_sc_not_in_db`. */
  datatype Submitted = Submitted(orders: seq<PurchaseOrder>, duplicates: Dict<RefId, nat>)

  /** The response means the order was already uploaded. */
  predicate IsDuplicate(response: CreateResponse) {
    response.status == 500 && Contains(response.text, AlreadyExists)
  }

  /** `list.index(x)`: the first position holding x. */
  function IndexOf<T(==)>(xs: seq<T>, x: T): (r: nat)
    requires x in xs
    ensures r < |xs| && xs[r] == x
    ensures forall j :: 0 <= j < r ==> xs[j] != x
    decreases |xs|
  {
    if xs[0] == x then 0 else 1 + IndexOf(xs[1..], x)
  }

  /**
   * One order of the batch, given what the orders before it left: `kept`
   * precedes it in the list, so its position is `|kept|`.
   */
  function SubmitOne(state: Submitted, order: PurchaseOrder, customerId: CustomerId, ctx: Context)
    : Traced<Submitted>
    requires order.customer.Some?
  {
    var built := BuildOrder(order, customerId, ctx.shipMap, ctx.index, ctx.round);
    match built.outcome
    case Raised(f) => Traced(Raised(f), built.events)
    case Done(None) => Traced(Done(state), built.events)
    case Done(Some(b)) =>
      var tagged := order.(amounts := Some(b.amounts));
      var response := ctx.remote.createOrder(b.submission);
      if IsDuplicate(response) then
        var duplicates := Put(state.duplicates, b.submission.details.sourceOrderId, |state.orders|);
        Traced(Done(Submitted(state.orders + [tagged], duplicates)), built.events)
      else if response.status == 200 then
        Traced(Done(Submitted(state.orders + [tagged.(remoteId := Some(response.body))], state.duplicates)), built.events)
      else
        Traced(Done(state), built.events + [UploadError(tagged, response.text)])
  }

  /** The loop over the given orders; an exception ends it. */
  function Submit(batch: seq<PurchaseOrder>, customerId: CustomerId, ctx: Context): Traced<Submitted>
    requires forall o :: o in batch ==> o.customer.Some?
    decreases |batch|
  {
    if |batch| == 0 then Traced(Done(Submitted([], Empty())), [])
    else
      var before := Submit(batch[..|batch| - 1], customerId, ctx);
      match before.outcome
      case Raised(_) => before
      case Done(state) =>
        var step := SubmitOne(state, batch[|batch| - 1], customerId, ctx);
        Traced(step.outcome, before.events + step.events)
  }

  /** Once the loop raises, the orders after that one change nothing. */
  lemma {:induction false} SubmitRaised(batch: seq<PurchaseOrder>, n: nat, customerId: CustomerId, ctx: Context)
    requires forall o :: o in batch ==> o.customer.Some?
    requires n <= |batch|
    requires Submit(batch[..n], customerId, ctx).outcome.Raised?
    ensures Submit(batch, customerId, ctx) == Submit(batch[..n], customerId, ctx)
    decreases |batch| - n
  {
    if n < |batch| {
      var prefix := batch[..|batch| - 1];
      assert prefix[..n] == batch[..n];
      SubmitRaised(prefix, n, customerId, ctx);
    } else {
      assert batch[..n] == batch;
    }
  }

  /**
   * The order being processed is the first element of the list equal to
   * it: every order before it already has its amounts set, it does not.
   */
  lemma IndexOfFresh(kept: seq<PurchaseOrder>, rest: seq<PurchaseOrder>)
    requires |rest| > 0 && rest[0].amounts.None?
    requires forall o :: o in kept ==> o.amounts.Some?
    ensures rest[0] in kept + rest
    ensures IndexOf(kept + rest, rest[0]) == |kept|
  {
    var xs := kept + rest;
    assert xs[|kept|] == rest[0];
  }

  /**
   * An order is either dropped or appended to the kept orders: itself, with
   * the amounts of its built request set and possibly its remote id.
   */
  lemma SubmitOneKeeps(state: Submitted, order: PurchaseOrder, customerId: CustomerId, ctx: Context)
    requires order.customer.Some?
    ensures var next := SubmitOne(state, order, customerId, ctx);
      next.outcome.Done? ==>
        || next.outcome.value.orders == state.orders
        || (&& |next.outcome.value.orders| == |state.orders| + 1
            && next.outcome.value.orders[..|state.orders|] == state.orders
            && var o := next.outcome.value.orders[|state.orders|];
               var built := BuildOrder(order, customerId, ctx.shipMap, ctx.index, ctx.round).outcome;
               && o == order.(amounts := o.amounts, remoteId := o.remoteId)
               && built.Done? && built.value.Some?
               && o.amounts == Some(built.value.value.amounts))
  {
  }

  /** One more order of the batch, after orders that did not raise. */
  lemma SubmitStep(batch: seq<PurchaseOrder>, i: nat, customerId: CustomerId, ctx: Context)
    requires forall o :: o in batch ==> o.customer.Some?
    requires i < |batch| && Submit(batch[..i], customerId, ctx).outcome.Done?
    ensures batch[i].customer.Some?
    ensures var before := Submit(batch[..i], customerId, ctx);
      var step := SubmitOne(before.outcome.value, batch[i], customerId, ctx);
      Submit(batch[..i + 1], customerId, ctx) == Traced(step.outcome, before.events + step.events)
  {
    assert batch[i] in batch;
    assert batch[..i + 1][..i] == batch[..i];
  }

  /**
   * The body of the batch loop for the order at `index`: build it, record
   * its amounts, then drop it, submit it and keep it, or drop it after an
   * email. Its predecessors in the list are the orders already kept.
   */
  method SubmitOrder(orders: seq<PurchaseOrder>, index: nat, duplicates: Dict<RefId, nat>,
                     customerId: CustomerId, ctx: Context)
    returns (r: Outcome<Submitted>, events: seq<Event>)
    requires index < |orders| && orders[index].customer.Some?
    ensures var step := SubmitOne(Submitted(orders[..index], duplicates), orders[index], customerId, ctx);
      && events == step.events
      && (r.Raised? <==> step.outcome.Raised?)
      && (r.Raised? ==> r.fault == step.outcome.fault)
      && (r.Done? ==> r.value == Submitted(step.outcome.value.orders + orders[index + 1..], step.outcome.value.duplicates))
  {
    var order := orders[index];
    var built, emails := CreateOrder(order, customerId, ctx.shipMap, ctx.index, ctx.round);
    events := emails;
    if built.Raised? {
      return Raised(built.fault), events;
    }
    var orderAmounts := if built.value.Some? then Some(built.value.value.amounts) else None;
    var list := orders[index := orders[index].(amounts := orderAmounts)];
    var dups := duplicates;
    if built.value.None? {
      list := list[..index] + list[index + 1..];
      assert list == orders[..index] + orders[index + 1..];
    } else {
      var orderObj := built.value.value.submission;
      var response := ctx.remote.createOrder(orderObj);
      if response.status == 500 && Contains(response.text, AlreadyExists) {
        dups := Put(dups, orderObj.details.sourceOrderId, index);
        assert list == orders[..index] + [list[index]] + orders[index + 1..];
      } else if response.status == 200 {
        list := list[index := list[index].(remoteId := Some(response.body))];
        assert list == orders[..index] + [list[index]] + orders[index + 1..];
      } else {
        var unableToBeAdded := list[index];
        list := list[..index] + list[index + 1..];
        events := events + [UploadError(unableToBeAdded, response.text)];
        assert list == orders[..index] + orders[index + 1..];
      }
    }
    return Done(Submitted(list, dups)), events;
  }

  /**
   * After the order at position i of the batch is handled (as SubmitOrder
   * reports it), the loop's account of the prefix extends by that order.
   */
  lemma SubmitAdvance(batch: seq<PurchaseOrder>, i: nat, kept: seq<PurchaseOrder>, duplicates: Dict<RefId, nat>,
                      events: seq<Event>, customerId: CustomerId, ctx: Context, r: Outcome<Submitted>, emails: seq<Event>)
    requires forall o :: o in batch ==> o.customer.Some?
    requires i < |batch| && forall o :: o in kept ==> o.amounts.Some?
    requires Submit(batch[..i], customerId, ctx) == Traced(Done(Submitted(kept, duplicates)), events)
    requires batch[i].customer.Some?
    requires var step := SubmitOne(Submitted(kept, duplicates), batch[i], customerId, ctx);
      && emails == step.events
      && (r.Raised? <==> step.outcome.Raised?)
      && (r.Raised? ==> r.fault == step.outcome.fault)
      && (r.Done? ==> r.value == Submitted(step.outcome.value.orders + batch[i + 1..], step.outcome.value.duplicates))
    ensures r.Raised? ==> Submit(batch, customerId, ctx) == Traced(Raised(r.fault), events + emails)
    ensures r.Done? ==>
      && |r.value.orders| >= |batch| - (i + 1)
      && var kept' := r.value.orders[..|r.value.orders| - (|batch| - (i + 1))];
         && r.value.orders == kept' + batch[i + 1..]
         && (forall o :: o in kept' ==> o.amounts.Some?)
         && Submit(batch[..i + 1], customerId, ctx) == Traced(Done(Submitted(kept', r.value.duplicates)), events + emails)
  {
    SubmitStep(batch, i, customerId, ctx);
    SubmitOneKeeps(Submitted(kept, duplicates), batch[i], customerId, ctx);
    if r.Raised? {
      SubmitRaised(batch, i + 1, customerId, ctx);
    } else {
      var next := SubmitOne(Submitted(kept, duplicates), batch[i], customerId, ctx).outcome.value.orders;
      assert r.value.orders[..|r.value.orders| - (|batch| - (i + 1))] == next;
    }
  }

  /**
   * One pass of the batch loop: find the order's position in the list and
   * handle it there. The ghost parameters say where the loop stands.
   */
  method SubmitNext(orders: seq<PurchaseOrder>, order: PurchaseOrder, duplicates: Dict<RefId, nat>,
                    customerId: CustomerId, ctx: Context, ghost batch: seq<PurchaseOrder>, ghost i: nat,
                    ghost kept: seq<PurchaseOrder>, ghost events: seq<Event>)
    returns (r: Outcome<Submitted>, emails: seq<Event>)
    requires forall o :: o in batch ==> o.customer.Some? && o.amounts.None?
    requires i < |batch| && order == batch[i] && orders == kept + batch[i..]
    requires forall o :: o in kept ==> o.amounts.Some?
    requires Submit(batch[..i], customerId, ctx) == Traced(Done(Submitted(kept, duplicates)), events)
    ensures r.Raised? ==> Submit(batch, customerId, ctx) == Traced(Raised(r.fault), events + emails)
    ensures r.Done? ==>
      && |r.value.orders| >= |batch| - (i + 1)
      && var kept' := r.value.orders[..|r.value.orders| - (|batch| - (i + 1))];
         && r.value.orders == kept' + batch[i + 1..]
         && (forall o :: o in kept' ==> o.amounts.Some?)
         && Submit(batch[..i + 1], customerId, ctx) == Traced(Done(Submitted(kept', r.value.duplicates)), events + emails)
  {
    assert order in batch;
    IndexOfFresh(kept, batch[i..]);
    var index := IndexOf(orders, order);
    assert orders[..index] == kept && orders[index + 1..] == batch[i + 1..];
    r, emails := SubmitOrder(orders, index, duplicates, customerId, ctx);
    SubmitAdvance(batch, i, kept, duplicates, events, customerId, ctx, r, emails);
  }

  /** The batch loop of `main` over a snapshot of the batch (`for order in orders[:]`). */
  method SubmitOrders(batch: seq<PurchaseOrder>, customerId: CustomerId, ctx: Context)
    returns (r: Outcome<Submitted>, events: seq<Event>)
    requires forall o :: o in batch ==> o.customer.Some? && o.amounts.None?
    ensures Traced(r, events) == Submit(batch, customerId, ctx)
  {
    var orders := batch;
    var duplicates: Dict<RefId, nat> := Empty();
    events := [];
    ghost var kept: seq<PurchaseOrder> := [];
    for i := 0 to |batch|
      invariant orders == kept + batch[i..]
      invariant forall o :: o in kept ==> o.amounts.Some?
      invariant Submit(batch[..i], customerId, ctx) == Traced(Done(Submitted(kept, duplicates)), events)
    {
      var step, emails := SubmitNext(orders, batch[i], duplicates, customerId, ctx, batch, i, kept, events);
      events := events + emails;
      if step.Raised? {
        return Raised(step.fault), events;
      }
      kept := step.value.orders[..|step.value.orders| - (|batch| - (i + 1))];
      orders, duplicates := step.value.orders, step.value.duplicates;
    }
    assert batch[..|batch|] == batch;
    assert orders == kept;
    return Done(Submitted(orders, duplicates)), events;
  }

  /**
   * What the batch loop leaves behind, for a batch whose orders had no
   * remote id: every kept order has its amounts; each recorded reference id
   * indexes a kept order submitted under it that is still without a remote
   * id; and every kept order without a remote id has its reference id
   * recorded (possibly at a later order with the same reference id).
   */
  ghost predicate Sound(state: Submitted) {
    var orders := state.orders;
    var index := state.duplicates.entries;
    && Valid(state.duplicates)
    && (forall i :: 0 <= i < |orders| ==> orders[i].amounts.Some?)
    && (forall ref :: ref in index ==>
          index[ref] < |orders| && RefOf(orders[index[ref]]) == ref && orders[index[ref]].remoteId.None?)
    && (forall i :: 0 <= i < |orders| ==> orders[i].remoteId.Some? || RefOf(orders[i]) in index)
  }

  /** Keeping an order the remote system accepted (it has its remote id) keeps the state sound. */
  lemma SoundUploaded(state: Submitted, order: PurchaseOrder)
    requires Sound(state) && order.amounts.Some? && order.remoteId.Some?
    ensures Sound(Submitted(state.orders + [order], state.duplicates))
  {
    var orders := state.orders + [order];
    assert forall i :: 0 <= i < |state.orders| ==> orders[i] == state.orders[i];
  }

  /** Keeping a duplicate and recording it under its reference id keeps the state sound. */
  lemma SoundDuplicate(state: Submitted, order: PurchaseOrder)
    requires Sound(state) && order.amounts.Some? && order.remoteId.None?
    ensures Sound(Submitted(state.orders + [order], Put(state.duplicates, RefOf(order), |state.orders|)))
  {
    var orders := state.orders + [order];
    var ref0 := RefOf(order);
    var index := state.duplicates.entries[ref0 := |state.orders|];
    PutValid(state.duplicates, ref0, |state.orders|);
    forall ref | ref in index
      ensures index[ref] < |orders| && RefOf(orders[index[ref]]) == ref && orders[index[ref]].remoteId.None?
    {
      if ref != ref0 {
        assert orders[index[ref]] == state.orders[state.duplicates.entries[ref]];
      }
    }
    forall i | 0 <= i < |orders|
      ensures orders[i].amounts.Some? && (orders[i].remoteId.Some? || RefOf(orders[i]) in index)
    {
      if i < |state.orders| {
        assert orders[i] == state.orders[i];
      }
    }
  }

  lemma SubmitOneSound(state: Submitted, order: PurchaseOrder, customerId: CustomerId, ctx: Context)
    requires order.customer.Some? && order.remoteId.None? && Sound(state)
    ensures var next := SubmitOne(state, order, customerId, ctx).outcome;
      next.Done? ==> Sound(next.value) && |next.value.orders| <= |state.orders| + 1
  {
    var built := BuildOrder(order, customerId, ctx.shipMap, ctx.index, ctx.round);
    if built.outcome.Done? && built.outcome.value.Some? {
      var b := built.outcome.value.value;
      BuiltReference(order, customerId, ctx.shipMap, ctx.index, ctx.round);
      var tagged := order.(amounts := Some(b.amounts));
      var response := ctx.remote.createOrder(b.submission);
      if IsDuplicate(response) {
        SoundDuplicate(state, tagged);
      } else if response.status == 200 {
        SoundUploaded(state, tagged.(remoteId := Some(response.body)));
      }
    }
  }

  /** The loop's result over a batch of orders without remote ids is sound and no longer than the batch. */
  lemma {:induction false} SubmitSound(batch: seq<PurchaseOrder>, customerId: CustomerId, ctx: Context)
    requires forall o :: o in batch ==> o.customer.Some? && o.remoteId.None?
    ensures var r := Submit(batch, customerId, ctx).outcome;
      r.Done? ==> Sound(r.value) && |r.value.orders| <= |batch|
    decreases |batch|
  {
    if |batch| > 0 {
      var prefix := batch[..|batch| - 1];
      assert forall o :: o in prefix ==> o in batch;
      assert batch[|batch| - 1] in batch;
      SubmitSound(prefix, customerId, ctx);
      var before := Submit(prefix, customerId, ctx);
      if before.outcome.Done? {
        SubmitOneSound(before.outcome.value, batch[|batch| - 1], customerId, ctx);
      }
    }
  }

  /** The `order_ids` argument of the id lookup: the recorded reference ids joined by " ,". */
  function IdsQuery(refIds: seq<RefId>): string {
    Join(refIds, " ,")
  }

  /**
   * The loop over the lookup's items: each item's remote id goes to the
   * order its reference id indexes; an unknown reference id or an index
   * past the end of the list raises.
   */
  function Attach(orders: seq<PurchaseOrder>, index: map<RefId, nat>, items: seq<IdsItem>)
    : Outcome<seq<PurchaseOrder>>
    decreases |items|
  {
    if |items| == 0 then Done(orders)
    else
      match Attach(orders, index, items[..|items| - 1])
      case Raised(f) => Raised(f)
      case Done(os) =>
        var item := items[|items| - 1];
        if item.sourceOrderId !in index then Raised(UnknownEchoedId(item.sourceOrderId))
        else if index[item.sourceOrderId] >= |os| then Raised(StaleDuplicateIndex(index[item.sourceOrderId]))
        else
          var i := index[item.sourceOrderId];
          Done(os[i := os[i].(remoteId := Some(item.id))])
  }

  /** The item names a recorded reference id that indexes position i. */
  predicate Targets(index: map<RefId, nat>, item: IdsItem, i: nat) {
    item.sourceOrderId in index && index[item.sourceOrderId] == i
  }

  /**
   * With every index inside the list, attaching fails exactly when an item
   * names an unrecorded reference id, and then with the first such one.
   */
  lemma {:induction false} AttachFails(orders: seq<PurchaseOrder>, index: map<RefId, nat>, items: seq<IdsItem>)
    requires forall ref :: ref in index ==> index[ref] < |orders|
    ensures Attach(orders, index, items).Done? ==> |Attach(orders, index, items).value| == |orders|
    ensures Attach(orders, index, items).Done? <==> forall k :: 0 <= k < |items| ==> items[k].sourceOrderId in index
    ensures forall k :: 0 <= k < |items| && items[k].sourceOrderId !in index
                        && (forall j :: 0 <= j < k ==> items[j].sourceOrderId in index) ==>
      Attach(orders, index, items) == Raised(UnknownEchoedId(items[k].sourceOrderId))
    decreases |items|
  {
    if |items| > 0 {
      var prefix := items[..|items| - 1];
      AttachFails(orders, index, prefix);
      assert forall j :: 0 <= j < |prefix| ==> prefix[j] == items[j];
    }
  }

  /**
   * When every item names a recorded reference id, only remote ids change:
   * an order keeps its own unless an item targets it, and then takes the
   * last such item's id.
   */
  lemma {:induction false} AttachSets(orders: seq<PurchaseOrder>, index: map<RefId, nat>, items: seq<IdsItem>)
    requires forall ref :: ref in index ==> index[ref] < |orders|
    requires forall k :: 0 <= k < |items| ==> items[k].sourceOrderId in index
    ensures Attach(orders, index, items).Done?
    ensures var r := Attach(orders, index, items).value;
      && |r| == |orders|
      && (forall i :: 0 <= i < |orders| ==> r[i] == orders[i].(remoteId := r[i].remoteId))
      && (forall i :: 0 <= i < |orders| && (forall k :: 0 <= k < |items| ==> !Targets(index, items[k], i)) ==>
            r[i] == orders[i])
      && (forall i, k :: 0 <= i < |orders| && 0 <= k < |items| && Targets(index, items[k], i)
                         && (forall j :: k < j < |items| ==> !Targets(index, items[j], i)) ==>
            r[i] == orders[i].(remoteId := Some(items[k].id)))
      && (forall i, k :: 0 <= i < |orders| && 0 <= k < |items| && Targets(index, items[k], i) ==>
            r[i].remoteId.Some?)
    decreases |items|
  {
    if |items| > 0 {
      var n := |items| - 1;
      var prefix := items[..n];
      assert forall j :: 0 <= j < n ==> prefix[j] == items[j];
      AttachSets(orders, index, prefix);
      var os := Attach(orders, index, prefix).value;
      var at := index[items[n].sourceOrderId];
      var r := Attach(orders, index, items).value;
      assert r == os[at := os[at].(remoteId := Some(items[n].id))];
      forall i, k | 0 <= i < |orders| && 0 <= k < |items| && Targets(index, items[k], i)
                    && (forall j :: k < j < |items| ==> !Targets(index, items[j], i))
        ensures r[i] == orders[i].(remoteId := Some(items[k].id))
      {
        if k < n {
          assert !Targets(index, items[n], i);
          assert Targets(index, prefix[k], i);
        }
      }
      forall i, k | 0 <= i < |orders| && 0 <= k < |items| && Targets(index, items[k], i)
        ensures r[i].remoteId.Some?
      {
        if k < n && i != at {
          assert Targets(index, prefix[k], i);
        }
      }
    }
  }

  /** Once attaching raises, the items after that change nothing. */
  lemma {:induction false} AttachStop(orders: seq<PurchaseOrder>, index: map<RefId, nat>, items: seq<IdsItem>, n: nat)
    requires n <= |items| && Attach(orders, index, items[..n]).Raised?
    ensures Attach(orders, index, items) == Attach(orders, index, items[..n])
    decreases |items| - n
  {
    if n < |items| {
      var prefix := items[..|items| - 1];
      assert prefix[..n] == items[..n];
      AttachStop(orders, index, prefix, n);
    } else {
      assert items[..n] == items;
    }
  }

  /**
   * `orders_in_sc_not_in_db` handling: nothing when no duplicate was
   * recorded; otherwise one lookup of all recorded reference ids, whose
   * items are attached when it answers 200 and which is reported by one
   * email, leaving the orders as they are, when it does not.
   */
  function ResolveDuplicateIds(orders: seq<PurchaseOrder>, duplicates: Dict<RefId, nat>, lookupIds: string -> IdsResponse)
    : Traced<seq<PurchaseOrder>>
  {
    if |duplicates.entries| == 0 then Traced(Done(orders), [])
    else
      var response := lookupIds(IdsQuery(duplicates.keys));
      if response.status == 200 then Traced(Attach(orders, duplicates.entries, response.items), [])
      else Traced(Done(orders), [RemoteIdLookupError(response.text, duplicates.keys)])
  }

  method ResolveDuplicates(orders: seq<PurchaseOrder>, duplicates: Dict<RefId, nat>,
                           lookupIds: string -> IdsResponse)
    returns (r: Outcome<seq<PurchaseOrder>>, events: seq<Event>)
    ensures Traced(r, events) == ResolveDuplicateIds(orders, duplicates, lookupIds)
  {
    if |duplicates.entries| == 0 {
      return Done(orders), [];
    }
    var orderIds := duplicates.keys;
    var response := lookupIds(IdsQuery(orderIds));
    if response.status != 200 {
      return Done(orders), [RemoteIdLookupError(response.text, orderIds)];
    }
    var items := response.items;
    var list := orders;
    for k := 0 to |items|
      invariant Attach(orders, duplicates.entries, items[..k]) == Done(list)
    {
      assert items[..k + 1][..k] == items[..k];
      var item := items[k];
      if item.sourceOrderId !in duplicates.entries {
        AttachStop(orders, duplicates.entries, items, k + 1);
        return Raised(UnknownEchoedId(item.sourceOrderId)), [];
      }
      var index := duplicates.entries[item.sourceOrderId];
      if index >= |list| {
        AttachStop(orders, duplicates.entries, items, k + 1);
        return Raised(StaleDuplicateIndex(index)), [];
      }
      list := list[index := list[index].(remoteId := Some(item.id))];
    }
    assert items[..|items|] == items;
    return Done(list), [];
  }

  /**
   * What follows the batch loop: the duplicate lookup, then the write-back
   * of what is left when anything is.
   */
  function Settle(state: Submitted, ctx: Context): Traced<()> {
    var resolved := ResolveDuplicateIds(state.orders, state.duplicates, ctx.remote.lookupIds);
    match resolved.outcome
    case Raised(f) => Traced(Raised(f), resolved.events)
    case Done(orders) =>
      if |orders| == 0 then Traced(Done(()), resolved.events)
      else
        var written := UpdateOrders(orders, ctx.time, ctx.bulkUpdate);
        Traced(written.outcome, resolved.events + written.events)
  }

  /** One batch of a dropshipper's orders: the batch loop, then the rest. */
  function ProcessBatch(batch: seq<PurchaseOrder>, customerId: CustomerId, ctx: Context): Traced<()>
    requires forall o :: o in batch ==> o.customer.Some?
  {
    var submitted := Submit(batch, customerId, ctx);
    match submitted.outcome
    case Raised(f) => Traced(Raised(f), submitted.events)
    case Done(state) =>
      var settled := Settle(state, ctx);
      Traced(settled.outcome, submitted.events + settled.events)
  }

  method SettleBatch(state: Submitted, ctx: Context) returns (r: Outcome<()>, events: seq<Event>)
    ensures Traced(r, events) == Settle(state, ctx)
  {
    var resolved, lookupEmails := ResolveDuplicates(state.orders, state.duplicates, ctx.remote.lookupIds);
    events := lookupEmails;
    if resolved.Raised? {
      return Raised(resolved.fault), events;
    }
    var orders := resolved.value;
    if |orders| > 0 {
      var written, writeEvents := UpdatingOrderDataInDb(orders, ctx.time, ctx.bulkUpdate);
      return written, events + writeEvents;
    }
    return Done(()), events;
  }

  method UploadBatch(batch: seq<PurchaseOrder>, customerId: CustomerId, ctx: Context)
    returns (r: Outcome<()>, events: seq<Event>)
    requires forall o :: o in batch ==> o.customer.Some? && o.amounts.None?
    ensures Traced(r, events) == ProcessBatch(batch, customerId, ctx)
  {
    var submitted, sent := SubmitOrders(batch, customerId, ctx);
    if submitted.Raised? {
      return Raised(submitted.fault), sent;
    }
    var settled, rest := SettleBatch(submitted.value, ctx);
    return settled, sent + rest;
  }

  /** The write-back's single event for orders that can all be written. */
  function WriteBackEvent(orders: seq<PurchaseOrder>, ctx: Context): Event
    requires forall i :: 0 <= i < |orders| ==> Writable(orders[i])
  {
    WriteRowsSpec(orders, ctx.time);
    var rows := WriteRows(orders, ctx.time).value;
    if ctx.bulkUpdate(rows) then WriteBackCommitted(rows) else WriteBackError(orders)
  }

  /**
   * Without duplicates every kept order was created remotely, so the batch
   * ends without a fault: the loop's emails, then (when an order is left)
   * the write-back of exactly the kept orders.
   */
  lemma NoDuplicatesBatch(batch: seq<PurchaseOrder>, customerId: CustomerId, ctx: Context)
    requires forall o :: o in batch ==> o.customer.Some? && o.remoteId.None?
    requires var s := Submit(batch, customerId, ctx).outcome; s.Done? && |s.value.duplicates.entries| == 0
    ensures var s := Submit(batch, customerId, ctx);
      var kept := s.outcome.value.orders;
      && (forall i :: 0 <= i < |kept| ==> Writable(kept[i]))
      && ProcessBatch(batch, customerId, ctx)
           == Traced(Done(()), s.events + if |kept| == 0 then [] else [WriteBackEvent(kept, ctx)])
  {
    SubmitSound(batch, customerId, ctx);
    var s := Submit(batch, customerId, ctx);
    var kept := s.outcome.value.orders;
    assert s.events + [] == s.events;
    if |kept| > 0 {
      UpdateOrdersSpec(kept, ctx.time, ctx.bulkUpdate);
      assert [] + [WriteBackEvent(kept, ctx)] == [WriteBackEvent(kept, ctx)];
    }
  }

  /** A sound state with a recorded duplicate cannot be written back as it is. */
  lemma UnresolvedRaises(state: Submitted, time: Timestamp)
    requires Sound(state) && |state.duplicates.entries| > 0
    ensures |state.orders| > 0
    ensures WriteRows(state.orders, time).Raised? && WriteRows(state.orders, time).fault.MissingRemoteId?
  {
    var ref :| ref in state.duplicates.entries;
    var at := state.duplicates.entries[ref];
    assert !Writable(state.orders[at]);
    WriteRowsSpec(state.orders, time);
    WriteRowsMissingId(state.orders, time);
  }

  /**
   * A failed id lookup leaves the recorded duplicates without a remote id:
   * after its email, the write-back raises on a missing remote id.
   */
  lemma FailedLookupRaises(batch: seq<PurchaseOrder>, customerId: CustomerId, ctx: Context)
    requires forall o :: o in batch ==> o.customer.Some? && o.remoteId.None?
    requires var s := Submit(batch, customerId, ctx).outcome;
      && s.Done? && |s.value.duplicates.entries| > 0
      && ctx.remote.lookupIds(IdsQuery(s.value.duplicates.keys)).status != 200
    ensures var s := Submit(batch, customerId, ctx);
      var keys := s.outcome.value.duplicates.keys;
      var r := ProcessBatch(batch, customerId, ctx);
      && r.outcome.Raised? && r.outcome.fault.MissingRemoteId?
      && r.events == s.events + [RemoteIdLookupError(ctx.remote.lookupIds(IdsQuery(keys)).text, keys)]
  {
    SubmitSound(batch, customerId, ctx);
    FailedLookupSettles(Submit(batch, customerId, ctx).outcome.value, ctx);
  }

  lemma FailedLookupSettles(state: Submitted, ctx: Context)
    requires Sound(state) && |state.duplicates.entries| > 0
    requires ctx.remote.lookupIds(IdsQuery(state.duplicates.keys)).status != 200
    ensures var r := Settle(state, ctx);
      && r.outcome.Raised? && r.outcome.fault.MissingRemoteId?
      && r.events == [RemoteIdLookupError(ctx.remote.lookupIds(IdsQuery(state.duplicates.keys)).text, state.duplicates.keys)]
  {
    UnresolvedRaises(state, ctx.time);
    var e := RemoteIdLookupError(ctx.remote.lookupIds(IdsQuery(state.duplicates.keys)).text, state.duplicates.keys);
    assert [e] + [] == [e];
  }

  /**
   * An answered lookup that echoes a reference id never recorded raises
   * on the first such one, after the loop's emails; nothing is written.
   */
  lemma UnknownEchoRaises(batch: seq<PurchaseOrder>, customerId: CustomerId, ctx: Context, k: nat)
    requires forall o :: o in batch ==> o.customer.Some? && o.remoteId.None?
    requires var s := Submit(batch, customerId, ctx).outcome;
      && s.Done? && |s.value.duplicates.entries| > 0
      && var response := ctx.remote.lookupIds(IdsQuery(s.value.duplicates.keys));
      && response.status == 200
      && k < |response.items| && response.items[k].sourceOrderId !in s.value.duplicates.entries
      && forall j :: 0 <= j < k ==> response.items[j].sourceOrderId in s.value.duplicates.entries
    ensures var s := Submit(batch, customerId, ctx);
      var response := ctx.remote.lookupIds(IdsQuery(s.outcome.value.duplicates.keys));
      ProcessBatch(batch, customerId, ctx)
        == Traced(Raised(UnknownEchoedId(response.items[k].sourceOrderId)), s.events)
  {
    SubmitSound(batch, customerId, ctx);
    var s := Submit(batch, customerId, ctx);
    UnknownEchoSettles(s.outcome.value, ctx, k);
    assert s.events + [] == s.events;
  }

  lemma UnknownEchoSettles(state: Submitted, ctx: Context, k: nat)
    requires Sound(state) && |state.duplicates.entries| > 0
    requires var response := ctx.remote.lookupIds(IdsQuery(state.duplicates.keys));
      && response.status == 200
      && k < |response.items| && response.items[k].sourceOrderId !in state.duplicates.entries
      && forall j :: 0 <= j < k ==> response.items[j].sourceOrderId in state.duplicates.entries
    ensures var response := ctx.remote.lookupIds(IdsQuery(state.duplicates.keys));
      Settle(state, ctx) == Traced(Raised(UnknownEchoedId(response.items[k].sourceOrderId)), [])
  {
    var response := ctx.remote.lookupIds(IdsQuery(state.duplicates.keys));
    AttachFails(state.orders, state.duplicates.entries, response.items);
  }

  /**
   * Attaching the ids of a lookup that echoes exactly the recorded
   * reference ids gives every order of a sound state with distinct
   * reference ids what the write-back reads.
   */
  lemma ResolvedWritable(state: Submitted, items: seq<IdsItem>)
    requires Sound(state)
    requires forall i, j :: 0 <= i < j < |state.orders| ==> RefOf(state.orders[i]) != RefOf(state.orders[j])
    requires forall ref :: ref in state.duplicates.entries <==>
               exists k :: 0 <= k < |items| && items[k].sourceOrderId == ref
    ensures Attach(state.orders, state.duplicates.entries, items).Done?
    ensures var attached := Attach(state.orders, state.duplicates.entries, items).value;
      |attached| == |state.orders| && forall i :: 0 <= i < |attached| ==> Writable(attached[i])
  {
    var index := state.duplicates.entries;
    forall k | 0 <= k < |items|
      ensures items[k].sourceOrderId in index
    {
      var ref := items[k].sourceOrderId;
      assert exists k' :: 0 <= k' < |items| && items[k'].sourceOrderId == ref;
    }
    AttachSets(state.orders, index, items);
    var attached := Attach(state.orders, index, items).value;
    forall i | 0 <= i < |attached|
      ensures Writable(attached[i])
    {
      ResolvedPosition(state, items, i);
    }
  }

  /** One position of `ResolvedWritable`. */
  lemma ResolvedPosition(state: Submitted, items: seq<IdsItem>, i: nat)
    requires Sound(state) && i < |state.orders|
    requires forall i, j :: 0 <= i < j < |state.orders| ==> RefOf(state.orders[i]) != RefOf(state.orders[j])
    requires forall ref :: ref in state.duplicates.entries ==>
               exists k :: 0 <= k < |items| && items[k].sourceOrderId == ref
    requires forall k :: 0 <= k < |items| ==> items[k].sourceOrderId in state.duplicates.entries
    ensures Attach(state.orders, state.duplicates.entries, items).Done?
    ensures var attached := Attach(state.orders, state.duplicates.entries, items).value;
      i < |attached| && Writable(attached[i])
  {
    var index := state.duplicates.entries;
    AttachSets(state.orders, index, items);
    var attached := Attach(state.orders, index, items).value;
    assert attached[i] == state.orders[i].(remoteId := attached[i].remoteId);
    if state.orders[i].remoteId.None? {
      var ref := RefOf(state.orders[i]);
      assert index[ref] == i;
      var k :| 0 <= k < |items| && items[k].sourceOrderId == ref;
      assert Targets(index, items[k], i);
    }
  }

  /**
   * When the lookup answers with exactly the recorded reference ids and the
   * kept orders have distinct reference ids, every kept order gets a remote
   * id and the batch ends without a fault, its last event the write-back's.
   */
  lemma ResolvedBatch(batch: seq<PurchaseOrder>, customerId: CustomerId, ctx: Context)
    requires forall o :: o in batch ==> o.customer.Some? && o.remoteId.None?
    requires var s := Submit(batch, customerId, ctx).outcome;
      && s.Done? && |s.value.duplicates.entries| > 0
      && (forall i, j :: 0 <= i < j < |s.value.orders| ==> RefOf(s.value.orders[i]) != RefOf(s.value.orders[j]))
      && var response := ctx.remote.lookupIds(IdsQuery(s.value.duplicates.keys));
      && response.status == 200
      && forall ref :: ref in s.value.duplicates.entries <==>
           exists k :: 0 <= k < |response.items| && response.items[k].sourceOrderId == ref
    ensures var s := Submit(batch, customerId, ctx);
      var r := ProcessBatch(batch, customerId, ctx);
      var response := ctx.remote.lookupIds(IdsQuery(s.outcome.value.duplicates.keys));
      var attached := Attach(s.outcome.value.orders, s.outcome.value.duplicates.entries, response.items);
      && r.outcome == Done(())
      && attached.Done? && (forall i :: 0 <= i < |attached.value| ==> Writable(attached.value[i]))
      && r.events == s.events + [WriteBackEvent(attached.value, ctx)]
  {
    SubmitSound(batch, customerId, ctx);
    ResolvedSettles(Submit(batch, customerId, ctx).outcome.value, ctx);
  }

  /** The settle step of `ResolvedBatch`: the write-back of the attached orders is its only event. */
  lemma ResolvedSettles(state: Submitted, ctx: Context)
    requires Sound(state) && |state.duplicates.entries| > 0
    requires forall i, j :: 0 <= i < j < |state.orders| ==> RefOf(state.orders[i]) != RefOf(state.orders[j])
    requires var response := ctx.remote.lookupIds(IdsQuery(state.duplicates.keys));
      && response.status == 200
      && forall ref :: ref in state.duplicates.entries <==>
           exists k :: 0 <= k < |response.items| && response.items[k].sourceOrderId == ref
    ensures var response := ctx.remote.lookupIds(IdsQuery(state.duplicates.keys));
      var attached := Attach(state.orders, state.duplicates.entries, response.items);
      && attached.Done? && (forall i :: 0 <= i < |attached.value| ==> Writable(attached.value[i]))
      && Settle(state, ctx) == Traced(Done(()), [WriteBackEvent(attached.value, ctx)])
  {
    var response := ctx.remote.lookupIds(IdsQuery(state.duplicates.keys));
    ResolvedWritable(state, response.items);
    var ref :| ref in state.duplicates.entries;
    assert state.duplicates.entries[ref] < |state.orders|;
    var attached := Attach(state.orders, state.duplicates.entries, response.items).value;
    assert ResolveDuplicateIds(state.orders, state.duplicates, ctx.remote.lookupIds) == Traced(Done(attached), []);
    SettleWritable(state, ctx, attached);
  }

  /** A lookup step that leaves writable orders is followed by their write-back and nothing else. */
  lemma SettleWritable(state: Submitted, ctx: Context, attached: seq<PurchaseOrder>)
    requires ResolveDuplicateIds(state.orders, state.duplicates, ctx.remote.lookupIds) == Traced(Done(attached), [])
    requires |attached| > 0 && forall i :: 0 <= i < |attached| ==> Writable(attached[i])
    ensures Settle(state, ctx) == Traced(Done(()), [WriteBackEvent(attached, ctx)])
  {
    UpdateOrdersSpec(attached, ctx.time, ctx.bulkUpdate);
    assert [] + [WriteBackEvent(attached, ctx)] == [WriteBackEvent(attached, ctx)];
  }

  /**
   * A kept order whose reference id is recorded at another position (a
   * later duplicate under the same reference id overwrote the record) is
   * targeted by no echoed item.
   */
  lemma OverwrittenUntargeted(state: Submitted, i: nat, item: IdsItem)
    requires Sound(state) && i < |state.orders|
    requires RefOf(state.orders[i]) in state.duplicates.entries
    requires state.duplicates.entries[RefOf(state.orders[i])] != i
    ensures !Targets(state.duplicates.entries, item, i)
  {
  }

  /**
   * An answered lookup that echoes only recorded reference ids but none
   * that targets a kept order still without a remote id (a partial answer,
   * or an overwritten record) leaves that order unresolved: the write-back
   * raises on the missing remote id and nothing is written.
   */
  lemma UnechoedSettles(state: Submitted, ctx: Context, i: nat)
    requires Sound(state) && |state.duplicates.entries| > 0
    requires i < |state.orders| && state.orders[i].remoteId.None?
    requires var response := ctx.remote.lookupIds(IdsQuery(state.duplicates.keys));
      && response.status == 200
      && (forall k :: 0 <= k < |response.items| ==> response.items[k].sourceOrderId in state.duplicates.entries)
      && (forall k :: 0 <= k < |response.items| ==> !Targets(state.duplicates.entries, response.items[k], i))
    ensures Settle(state, ctx).outcome.Raised? && Settle(state, ctx).outcome.fault.MissingRemoteId?
    ensures Settle(state, ctx).events == []
  {
    var response := ctx.remote.lookupIds(IdsQuery(state.duplicates.keys));
    Untargeted(state.orders, state.duplicates.entries, response.items, i);
    MissingIdRaises(Attach(state.orders, state.duplicates.entries, response.items).value, ctx.time, i);
  }

  /** Attaching leaves an untargeted order as it is and every order's amounts unchanged. */
  lemma Untargeted(orders: seq<PurchaseOrder>, index: map<RefId, nat>, items: seq<IdsItem>, i: nat)
    requires forall ref :: ref in index ==> index[ref] < |orders|
    requires forall k :: 0 <= k < |items| ==> items[k].sourceOrderId in index
    requires i < |orders| && forall k :: 0 <= k < |items| ==> !Targets(index, items[k], i)
    ensures Attach(orders, index, items).Done?
    ensures var r := Attach(orders, index, items).value;
      && |r| == |orders| && r[i] == orders[i]
      && forall j :: 0 <= j < |orders| ==> r[j].amounts == orders[j].amounts
  {
    AttachSets(orders, index, items);
  }

  /** Orders that all have amounts, one without a remote id: the tuples raise on a missing remote id. */
  lemma MissingIdRaises(orders: seq<PurchaseOrder>, time: Timestamp, i: nat)
    requires forall j :: 0 <= j < |orders| ==> orders[j].amounts.Some?
    requires i < |orders| && orders[i].remoteId.None?
    ensures WriteRows(orders, time).Raised? && WriteRows(orders, time).fault.MissingRemoteId?
  {
    assert !Writable(orders[i]);
    WriteRowsSpec(orders, time);
    WriteRowsMissingId(orders, time);
  }

  /** The same for a whole batch: after the order loop's emails, the batch raises on the missing remote id. */
  lemma UnechoedRaises(batch: seq<PurchaseOrder>, customerId: CustomerId, ctx: Context, i: nat)
    requires forall o :: o in batch ==> o.customer.Some? && o.remoteId.None?
    requires var s := Submit(batch, customerId, ctx).outcome;
      && s.Done? && |s.value.duplicates.entries| > 0
      && i < |s.value.orders| && s.value.orders[i].remoteId.None?
      && var response := ctx.remote.lookupIds(IdsQuery(s.value.duplicates.keys));
      && response.status == 200
      && (forall k :: 0 <= k < |response.items| ==> response.items[k].sourceOrderId in s.value.duplicates.entries)
      && (forall k :: 0 <= k < |response.items| ==> !Targets(s.value.duplicates.entries, response.items[k], i))
    ensures var r := ProcessBatch(batch, customerId, ctx);
      && r.outcome.Raised? && r.outcome.fault.MissingRemoteId?
      && r.events == Submit(batch, customerId, ctx).events
  {
    SubmitSound(batch, customerId, ctx);
    var s := Submit(batch, customerId, ctx);
    UnechoedSettles(s.outcome.value, ctx, i);
    assert s.events + [] == s.events;
  }
}
