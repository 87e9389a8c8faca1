/**
 * SKU availability: `OrderCreator._get_skus_in_sellercloud`
 * (order_creator.py:192-219). The run's SKU list is drained in lookups of
 * at most 50; every item a lookup reports goes into the SKU -> wholesale
 * price index, and a lookup that raises aborts the whole resolution.
 */
module SkuCatalog {
  import opened Records
  import opened Text
  import opened Batching

  const LookupBatchSize: nat := 50

  /** The `skus` URL argument of one lookup: the batch joined by ", ". */
  function Query(batch: seq<Sku>): string {
    Join(batch, ", ")
  }

  /** Store each reported item in turn; a later report of an ID overwrites an earlier one. */
  function Absorb(index: map<Sku, real>, items: seq<CatalogItem>): map<Sku, real>
    decreases |items|
  {
    if |items| == 0 then index
    else Absorb(index[items[0].id := items[0].wholesalePrice], items[1..])
  }

  /** The lookups of `batches`, one after the other, accumulated into `index`. */
  function Resolve(batches: seq<seq<Sku>>, lookup: string -> CatalogReply, index: map<Sku, real>)
    : Outcome<map<Sku, real>>
    decreases |batches|
  {
    if |batches| == 0 then Done(index)
    else
      match lookup(Query(batches[0]))
      case CatalogRaised => Raised(CatalogLookupFailed)
      case CatalogSkipped => Resolve(batches[1..], lookup, index)
      case CatalogItems(items) => Resolve(batches[1..], lookup, Absorb(index, items))
  }

  /** Every item the lookups of `batches` report, in the order they are reported. */
  function Reported(batches: seq<seq<Sku>>, lookup: string -> CatalogReply): seq<CatalogItem>
    decreases |batches|
  {
    if |batches| == 0 then []
    else
      (match lookup(Query(batches[0]))
       case CatalogItems(items) => items
       case _ => [])
      + Reported(batches[1..], lookup)
  }

  /** `_get_skus_in_sellercloud(sku_numbers)`, with the remote lookup as `lookup`. */
  method GetSkusInCatalog(skuNumbers: seq<Sku>, lookup: string -> CatalogReply)
    returns (r: Outcome<map<Sku, real>>)
    ensures r == Resolve(Batches(skuNumbers, LookupBatchSize), lookup, map[])
  {
    var index: map<Sku, real> := map[];
    var rest := skuNumbers;
    while true
      invariant Resolve(Batches(rest, LookupBatchSize), lookup, index)
             == Resolve(Batches(skuNumbers, LookupBatchSize), lookup, map[])
      decreases |rest|
    {
      var batch;
      if |rest| > LookupBatchSize {
        batch, rest := PopTail(rest, LookupBatchSize);
      } else {
        batch, rest := rest, [];
      }
      var reply := lookup(Query(batch));
      match reply {
        case CatalogRaised =>
          return Raised(CatalogLookupFailed);
        case CatalogSkipped =>
        case CatalogItems(items) =>
          ghost var before := index;
          for j := 0 to |items|
            invariant Absorb(index, items[j..]) == Absorb(before, items)
          {
            assert items[j..][1..] == items[j + 1..];
            index := index[items[j].id := items[j].wholesalePrice];
          }
      }
      if |rest| == 0 {
        return Done(index);
      }
    }
  }

  /** An ID is in the index iff it was there or some item reports it. */
  lemma {:induction false} AbsorbKeys(index: map<Sku, real>, items: seq<CatalogItem>)
    ensures forall k :: k in Absorb(index, items) <==>
      (k in index || exists j :: 0 <= j < |items| && items[j].id == k)
    decreases |items|
  {
    if |items| > 0 {
      var next := index[items[0].id := items[0].wholesalePrice];
      AbsorbKeys(next, items[1..]);
      forall k | k in Absorb(index, items)
        ensures k in index || exists j :: 0 <= j < |items| && items[j].id == k
      {
        if k !in index && k != items[0].id {
          assert k in Absorb(next, items[1..]) && k !in next;
          var j' :| 0 <= j' < |items[1..]| && items[1..][j'].id == k;
          assert items[j' + 1].id == k;
        }
      }
      forall k | k in index || (exists j :: 0 <= j < |items| && items[j].id == k)
        ensures k in Absorb(index, items)
      {
        if k !in index && k != items[0].id {
          var j :| 0 <= j < |items| && items[j].id == k;
          assert items[1..][j - 1].id == k;
        }
      }
    }
  }

  /** The last report of an ID decides its price. */
  lemma {:induction false} AbsorbLast(index: map<Sku, real>, items: seq<CatalogItem>)
    ensures forall j :: 0 <= j < |items| && (forall j' :: j < j' < |items| ==> items[j'].id != items[j].id) ==>
      items[j].id in Absorb(index, items) && Absorb(index, items)[items[j].id] == items[j].wholesalePrice
    decreases |items|
  {
    if |items| > 0 {
      var next := index[items[0].id := items[0].wholesalePrice];
      AbsorbLast(next, items[1..]);
      AbsorbKeys(next, items[1..]);
      forall j | 0 <= j < |items| && (forall j' :: j < j' < |items| ==> items[j'].id != items[j].id)
        ensures items[j].id in Absorb(index, items) && Absorb(index, items)[items[j].id] == items[j].wholesalePrice
      {
        if j > 0 {
          assert items[1..][j - 1] == items[j];
        } else {
          AbsorbUntouched(next, items[1..]);
        }
      }
    }
  }

  /** An ID no item reports keeps its price. */
  lemma {:induction false} AbsorbUntouched(index: map<Sku, real>, items: seq<CatalogItem>)
    ensures forall k :: k in index && (forall j :: 0 <= j < |items| ==> items[j].id != k) ==>
      k in Absorb(index, items) && Absorb(index, items)[k] == index[k]
    decreases |items|
  {
    if |items| > 0 {
      var next := index[items[0].id := items[0].wholesalePrice];
      AbsorbUntouched(next, items[1..]);
      forall k | k in index && (forall j :: 0 <= j < |items| ==> items[j].id != k)
        ensures k in Absorb(index, items) && Absorb(index, items)[k] == index[k]
      {
        assert items[0].id != k;
        assert forall j :: 0 <= j < |items[1..]| ==> items[1..][j].id == items[j + 1].id;
      }
    }
  }

  /** The resolution fails iff one of its lookups raises. */
  lemma {:induction false} ResolveRaises(batches: seq<seq<Sku>>, lookup: string -> CatalogReply, index: map<Sku, real>)
    ensures Resolve(batches, lookup, index).Raised? <==>
      exists i :: 0 <= i < |batches| && lookup(Query(batches[i])).CatalogRaised?
    decreases |batches|
  {
    if |batches| > 0 {
      var reply := lookup(Query(batches[0]));
      var next := if reply.CatalogItems? then Absorb(index, reply.items) else index;
      ResolveRaises(batches[1..], lookup, next);
      if exists i :: 0 <= i < |batches| && lookup(Query(batches[i])).CatalogRaised? {
        var i :| 0 <= i < |batches| && lookup(Query(batches[i])).CatalogRaised?;
        if i > 0 {
          assert batches[1..][i - 1] == batches[i];
        }
      }
      if exists i :: 0 <= i < |batches[1..]| && lookup(Query(batches[1..][i])).CatalogRaised? {
        var i :| 0 <= i < |batches[1..]| && lookup(Query(batches[1..][i])).CatalogRaised?;
        assert batches[i + 1] == batches[1..][i];
      }
    }
  }

  /** A resolution that does not fail stores every reported item, in report order. */
  lemma {:induction false} ResolveIsAbsorb(batches: seq<seq<Sku>>, lookup: string -> CatalogReply, index: map<Sku, real>)
    ensures Resolve(batches, lookup, index).Done? ==>
      Resolve(batches, lookup, index).value == Absorb(index, Reported(batches, lookup))
    decreases |batches|
  {
    if |batches| > 0 {
      var reply := lookup(Query(batches[0]));
      var next := if reply.CatalogItems? then Absorb(index, reply.items) else index;
      ResolveIsAbsorb(batches[1..], lookup, next);
      if reply.CatalogItems? {
        AbsorbConcat(index, reply.items, Reported(batches[1..], lookup));
      } else {
        assert Reported(batches, lookup) == Reported(batches[1..], lookup);
      }
    }
  }

  lemma {:induction false} AbsorbConcat(index: map<Sku, real>, a: seq<CatalogItem>, b: seq<CatalogItem>)
    ensures Absorb(index, a + b) == Absorb(Absorb(index, a), b)
    decreases |a|
  {
    if |a| == 0 {
      assert a + b == b;
    } else {
      assert (a + b)[0] == a[0];
      assert (a + b)[1..] == a[1..] + b;
      AbsorbConcat(index[a[0].id := a[0].wholesalePrice], a[1..], b);
    }
  }

  /**
   * The resolution fails iff one of its lookups raises. Otherwise the index
   * holds exactly the IDs the lookups reported (SKUs they do not return are
   * absent), each with the price of its last report; every lookup asked
   * for at most 50 SKUs and together they asked for the whole list.
   */
  lemma CatalogIndex(skuNumbers: seq<Sku>, lookup: string -> CatalogReply)
    ensures forall b :: b in Batches(skuNumbers, LookupBatchSize) ==> |b| <= LookupBatchSize
    ensures multiset(Flatten(Batches(skuNumbers, LookupBatchSize))) == multiset(skuNumbers)
    ensures var batches := Batches(skuNumbers, LookupBatchSize);
      Resolve(batches, lookup, map[]).Raised? <==>
        exists i :: 0 <= i < |batches| && lookup(Query(batches[i])).CatalogRaised?
    ensures var batches := Batches(skuNumbers, LookupBatchSize);
      var reported := Reported(batches, lookup);
      Resolve(batches, lookup, map[]).Done? ==>
        && (forall k :: k in Resolve(batches, lookup, map[]).value <==>
              exists j :: 0 <= j < |reported| && reported[j].id == k)
        && (forall j :: 0 <= j < |reported| && (forall j' :: j < j' < |reported| ==> reported[j'].id != reported[j].id) ==>
              Resolve(batches, lookup, map[]).value[reported[j].id] == reported[j].wholesalePrice)
  {
    var batches := Batches(skuNumbers, LookupBatchSize);
    BatchesBounded(skuNumbers, LookupBatchSize);
    BatchesPermute(skuNumbers, LookupBatchSize);
    ResolveRaises(batches, lookup, map[]);
    ResolveIsAbsorb(batches, lookup, map[]);
    AbsorbKeys(map[], Reported(batches, lookup));
    AbsorbLast(map[], Reported(batches, lookup));
  }

  /** The only fault the resolution raises is the failed lookup. */
  lemma {:induction false} ResolveFault(batches: seq<seq<Sku>>, lookup: string -> CatalogReply, index: map<Sku, real>)
    ensures Resolve(batches, lookup, index).Raised? ==> Resolve(batches, lookup, index).fault == CatalogLookupFailed
    decreases |batches|
  {
    if |batches| > 0 {
      match lookup(Query(batches[0]))
      case CatalogRaised =>
      case CatalogSkipped => ResolveFault(batches[1..], lookup, index);
      case CatalogItems(items) => ResolveFault(batches[1..], lookup, Absorb(index, items));
    }
  }
}
