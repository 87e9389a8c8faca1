/**
 * The batching pattern shared by `batches_creator` (main.py:8-31) and the
 * SKU lookup of `_get_skus_in_sellercloud` (order_creator.py:197-203):
 * while more than `size` elements remain, pop `size` of them off the end
 * (so each such batch is the current tail, reversed); then take what is
 * left, in its original order, as the last batch.
 */
module Batching {

  function Reverse<T>(s: seq<T>): (r: seq<T>)
    ensures |r| == |s|
    ensures forall i :: 0 <= i < |s| ==> r[i] == s[|s| - 1 - i]
    decreases |s|
  {
    if |s| == 0 then [] else Reverse(s[1..]) + [s[0]]
  }

  function Flatten<T>(ss: seq<seq<T>>): seq<T>
    decreases |ss|
  {
    if |ss| == 0 then [] else ss[0] + Flatten(ss[1..])
  }

  /** The batches the loop produces, in the order it produces them. */
  function Batches<T>(s: seq<T>, size: nat): (r: seq<seq<T>>)
    requires size > 0
    decreases |s|
  {
    if |s| > size then [Reverse(s[|s| - size..])] + Batches(s[..|s| - size], size) else [s]
  }

  /** `[objects.pop() for _ in range(count)]`: the popped elements and what remains. */
  method PopTail<T>(objects: seq<T>, count: nat) returns (batch: seq<T>, rest: seq<T>)
    requires count <= |objects|
    ensures batch == Reverse(objects[|objects| - count..])
    ensures rest == objects[..|objects| - count]
  {
    batch, rest := [], objects;
    for k := 0 to count
      invariant rest == objects[..|objects| - k]
      invariant batch == Reverse(objects[|objects| - k..])
    {
      assert objects[|objects| - (k + 1)..][1..] == objects[|objects| - k..];
      batch := batch + [rest[|rest| - 1]];
      rest := rest[..|rest| - 1];
    }
  }

  /** `batches_creator(objects, batch_size)`. */
  method BatchesCreator<T>(objects: seq<T>, batchSize: nat) returns (container: seq<seq<T>>)
    requires batchSize > 0
    ensures container == Batches(objects, batchSize)
  {
    container := [];
    var rest := objects;
    while true
      invariant container + Batches(rest, batchSize) == Batches(objects, batchSize)
      decreases |rest|
    {
      var batch;
      if |rest| > batchSize {
        batch, rest := PopTail(rest, batchSize);
      } else {
        batch, rest := rest, [];
      }
      container := container + [batch];
      if |rest| == 0 {
        return;
      }
    }
  }

  lemma ReversePermutes<T>(s: seq<T>)
    ensures multiset(Reverse(s)) == multiset(s)
    decreases |s|
  {
    if |s| > 0 {
      ReversePermutes(s[1..]);
      assert s == [s[0]] + s[1..];
    }
  }

  /** Concatenating the batches gives back the input, up to order. */
  lemma {:induction false} BatchesPermute<T>(s: seq<T>, size: nat)
    requires size > 0
    ensures multiset(Flatten(Batches(s, size))) == multiset(s)
    decreases |s|
  {
    if |s| > size {
      var n := |s| - size;
      BatchesPermute(s[..n], size);
      ReversePermutes(s[n..]);
      assert s == s[..n] + s[n..];
    }
  }

  /** Every element of every batch comes from the input. */
  lemma {:induction false} BatchesMembers<T>(s: seq<T>, size: nat)
    requires size > 0
    ensures forall b, x :: b in Batches(s, size) && x in b ==> x in s
    decreases |s|
  {
    if |s| > size {
      var n := |s| - size;
      BatchesMembers(s[..n], size);
      forall x | x in Reverse(s[n..])
        ensures x in s
      {
        var i :| 0 <= i < |Reverse(s[n..])| && Reverse(s[n..])[i] == x;
        assert s[n..][size - 1 - i] == x;
      }
    }
  }

  /** No batch is larger than `size`, and there is at least one batch. */
  lemma {:induction false} BatchesBounded<T>(s: seq<T>, size: nat)
    requires size > 0
    ensures |Batches(s, size)| > 0
    ensures forall b :: b in Batches(s, size) ==> |b| <= size
    decreases |s|
  {
    if |s| > size {
      BatchesBounded(s[..|s| - size], size);
    }
  }

  /**
   * An empty input gives one empty batch; otherwise the number of batches
   * is ceil(n / size): the least count whose batches of `size` hold n.
   */
  lemma {:induction false} BatchesCount<T>(s: seq<T>, size: nat)
    requires size > 0
    ensures |s| == 0 ==> Batches(s, size) == [[]]
    ensures |s| > 0 ==> (|Batches(s, size)| - 1) * size < |s| <= |Batches(s, size)| * size
    decreases |s|
  {
    if |s| > size {
      var n := |s| - size;
      var m := |Batches(s[..n], size)|;
      BatchesCount(s[..n], size);
      assert |Batches(s, size)| == m + 1;
      assert (m + 1) * size == m * size + size;
      assert m * size == (m - 1) * size + size;
    }
  }

  /** How many elements `k` batches of `size` take, written as a sum. */
  function Taken(size: nat, k: nat): nat {
    if k == 0 then 0 else Taken(size, k - 1) + size
  }

  /** `Taken` is the product `k * size`. */
  lemma {:induction false} TakenIsProduct(size: nat, k: nat)
    ensures Taken(size, k) == k * size
  {
    if k > 0 {
      TakenIsProduct(size, k - 1);
      assert (k - 1) * size + size == k * size;
    }
  }

  /**
   * Every batch but the last is the reversed run of `size` elements taken
   * from the current end.
   */
  lemma {:induction false} BatchesFull<T>(s: seq<T>, size: nat, k: nat)
    requires size > 0
    requires k < |Batches(s, size)| - 1
    ensures Taken(size, k + 1) <= |s|
    ensures Batches(s, size)[k] == Reverse(s[|s| - Taken(size, k + 1)..|s| - Taken(size, k)])
    decreases |s|
  {
    if k == 0 {
      BatchesHead(s, size);
    } else {
      BatchesStep(s, size, k);
      BatchesFull(s[..|s| - size], size, k - 1);
      ShiftWindow(s, size, k);
    }
  }

  /** The first of several batches is the last `size` elements, reversed. */
  lemma BatchesHead<T>(s: seq<T>, size: nat)
    requires size > 0 && 1 < |Batches(s, size)|
    ensures Taken(size, 1) <= |s|
    ensures Batches(s, size)[0] == Reverse(s[|s| - Taken(size, 1)..|s| - Taken(size, 0)])
  {
    assert Taken(size, 1) == size && Taken(size, 0) == 0;
  }

  /** Batch `k > 0` is batch `k - 1` of the input without its last `size` elements. */
  lemma BatchesStep<T>(s: seq<T>, size: nat, k: nat)
    requires size > 0 && 0 < k < |Batches(s, size)|
    ensures size < |s| && k - 1 < |Batches(s[..|s| - size], size)|
    ensures |Batches(s, size)| == |Batches(s[..|s| - size], size)| + 1
    ensures Batches(s, size)[k] == Batches(s[..|s| - size], size)[k - 1]
  {
  }

  /** The window `k - 1` of the input without its last `size` elements is window `k` of the input. */
  lemma ShiftWindow<T>(s: seq<T>, size: nat, k: nat)
    requires 0 < k && size <= |s| && Taken(size, k) <= |s| - size
    ensures Taken(size, k + 1) <= |s|
    ensures s[..|s| - size][|s| - size - Taken(size, k)..|s| - size - Taken(size, k - 1)]
         == s[|s| - Taken(size, k + 1)..|s| - Taken(size, k)]
  {
    assert Taken(size, k + 1) == Taken(size, k) + size;
    assert Taken(size, k) == Taken(size, k - 1) + size;
  }

  /** The last batch is the remaining prefix, in its original order. */
  lemma {:induction false} BatchesLast<T>(s: seq<T>, size: nat)
    requires size > 0
    ensures var k := |Batches(s, size)| - 1;
      Taken(size, k) <= |s| && Batches(s, size)[k] == s[..|s| - Taken(size, k)]
    decreases |s|
  {
    if |s| > size {
      var n := |s| - size;
      BatchesLast(s[..n], size);
      var k := |Batches(s[..n], size)| - 1;
      assert |Batches(s, size)| - 1 == k + 1;
      assert s[..n][..n - Taken(size, k)] == s[..|s| - Taken(size, k + 1)];
    }
  }

  /** 120 orders in batches of 50 are processed as 50, 50 and 20. */
  lemma {:induction false} HundredTwentyOrders<T>(s: seq<T>)
    requires |s| == 120
    ensures |Batches(s, 50)| == 3
    ensures |Batches(s, 50)[0]| == 50 && |Batches(s, 50)[1]| == 50 && |Batches(s, 50)[2]| == 20
  {
    assert Batches(s, 50) == [Reverse(s[70..])] + Batches(s[..70], 50);
    assert Batches(s[..70], 50) == [Reverse(s[..70][20..])] + Batches(s[..70][..20], 50);
  }
}
