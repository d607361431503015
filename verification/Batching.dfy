/**
 Cutting a list of logs or metric points into requests under a count limit and a payload limit. Both
 senders cut greedily; the cut is feasible and uses as few requests as any feasible cut.
 */
module Batching {
  import opened Prelude

  const MAX_BATCH: nat := 1000
  const MAX_BATCH_BYTES: nat := 4 * 1024 * 1024

  /** The estimated size of the items from `i` up to `j`. */
  function RangeBytes(sizes: seq<nat>, i: nat, j: nat): nat
    requires j <= |sizes|
  {
    if i >= j then 0 else RangeBytes(sizes, i, j - 1) + sizes[j - 1]
  }

  /** A request may hold these items: not too many, and within the payload cap unless it is alone. */
  predicate Fits(sizes: seq<nat>, i: nat, j: nat)
    requires j <= |sizes|
  {
    i < j && j - i <= MAX_BATCH && (RangeBytes(sizes, i, j) <= MAX_BATCH_BYTES || j == i + 1)
  }

  /** The furthest end the greedy loop reaches from `i`, when it already got to `j`. */
  function Furthest(sizes: seq<nat>, i: nat, j: nat): (end: nat)
    requires i < j <= |sizes|
    ensures j <= end <= |sizes|
    decreases |sizes| - j
  {
    if j < |sizes| && j - i < MAX_BATCH && RangeBytes(sizes, i, j) + sizes[j] <= MAX_BATCH_BYTES
    then Furthest(sizes, i, j + 1)
    else j
  }

  /** The ends of the greedy batches from `i` on. */
  function GreedyEnds(sizes: seq<nat>, i: nat): seq<nat>
    requires i <= |sizes|
    decreases |sizes| - i
  {
    if i == |sizes| then []
    else
      var end := Furthest(sizes, i, i + 1);
      [end] + GreedyEnds(sizes, end)
  }

  // ----- the two loops -----

  /** The inner loop of `send_datadog_logs`, which keeps the index of the batch end. */
  method NextLogBatch(sizes: seq<nat>, offset: nat) returns (batchEnd: nat)
    requires offset < |sizes|
    ensures batchEnd == Furthest(sizes, offset, offset + 1)
  {
    batchEnd := offset;
    var batchBytes := 0;
    while batchEnd < |sizes| && batchEnd - offset < MAX_BATCH
      invariant offset <= batchEnd <= |sizes| && batchEnd - offset <= MAX_BATCH
      invariant batchBytes == RangeBytes(sizes, offset, batchEnd)
      invariant batchEnd > offset ==> Furthest(sizes, offset, batchEnd) == Furthest(sizes, offset, offset + 1)
    {
      var nextBytes := sizes[batchEnd];
      if batchEnd > offset && batchBytes + nextBytes > MAX_BATCH_BYTES {
        break;
      }
      batchBytes := batchBytes + nextBytes;
      batchEnd := batchEnd + 1;
    }
  }

  /** The inner loop of `send_datadog_metrics`, which keeps the number of points in the batch. */
  method NextPointBatch(sizes: seq<nat>, offset: nat) returns (batch: nat)
    requires offset < |sizes|
    ensures offset + batch == Furthest(sizes, offset, offset + 1)
  {
    batch := 0;
    var bytes := 0;
    while offset + batch < |sizes| && batch < MAX_BATCH
      invariant offset + batch <= |sizes| && batch <= MAX_BATCH
      invariant bytes == RangeBytes(sizes, offset, offset + batch)
      invariant batch > 0 ==> Furthest(sizes, offset, offset + batch) == Furthest(sizes, offset, offset + 1)
    {
      var next := sizes[offset + batch];
      if batch > 0 && bytes + next > MAX_BATCH_BYTES {
        break;
      }
      bytes := bytes + next;
      batch := batch + 1;
    }
  }

  lemma NextEnd(sizes: seq<nat>, offset: nat, ends: seq<nat>)
    requires offset < |sizes|
    ensures var end := Furthest(sizes, offset, offset + 1);
            ends + GreedyEnds(sizes, offset) == ends + [end] + GreedyEnds(sizes, end)
  {
  }

  /** The outer loop of `send_datadog_metrics`. */
  method CutPoints(sizes: seq<nat>) returns (ends: seq<nat>)
    ensures ends == GreedyEnds(sizes, 0)
  {
    ends := [];
    var offset := 0;
    ghost var first: nat :| first == offset;
    ghost var all := GreedyEnds(sizes, first);
    while offset < |sizes|
      invariant offset <= |sizes|
      invariant ends + GreedyEnds(sizes, offset) == all
    {
      var batch := NextPointBatch(sizes, offset);
      NextEnd(sizes, offset, ends);
      ends := ends + [offset + batch];
      offset := offset + batch;
    }
  }

  // ----- any cut at all -----

  /** `ends` cuts the items from `first` on into consecutive feasible batches. */
  predicate IsCut(sizes: seq<nat>, first: nat, ends: seq<nat>)
    decreases |ends|
  {
    if ends == [] then first == |sizes|
    else ends[0] <= |sizes| && Fits(sizes, first, ends[0]) && IsCut(sizes, ends[0], ends[1..])
  }

  lemma {:induction false} RangeBytesMonotone(sizes: seq<nat>, i: nat, i': nat, j: nat, j': nat)
    requires i <= i' && j' <= j <= |sizes|
    ensures RangeBytes(sizes, i', j') <= RangeBytes(sizes, i, j)
    decreases j
  {
    if i' < j' {
      if j' == j {
        RangeBytesMonotone(sizes, i, i', j - 1, j' - 1);
      } else {
        RangeBytesMonotone(sizes, i, i', j - 1, j');
      }
    }
  }

  /** Part of a feasible batch is feasible. */
  lemma FitsPart(sizes: seq<nat>, i: nat, i': nat, j: nat, j': nat)
    requires i <= i' < j' <= j <= |sizes| && Fits(sizes, i, j)
    ensures Fits(sizes, i', j')
  {
    RangeBytesMonotone(sizes, i, i', j, j');
  }

  /** The greedy end is feasible and no feasible batch from there reaches further. */
  lemma {:induction false} FurthestIsMaximal(sizes: seq<nat>, i: nat, j: nat)
    requires i < j <= |sizes| && Fits(sizes, i, j)
    ensures Fits(sizes, i, Furthest(sizes, i, j))
    ensures forall e :: i < e <= |sizes| && Fits(sizes, i, e) ==> e <= Furthest(sizes, i, j)
    decreases |sizes| - j
  {
    if j < |sizes| && j - i < MAX_BATCH && RangeBytes(sizes, i, j) + sizes[j] <= MAX_BATCH_BYTES {
      FurthestIsMaximal(sizes, i, j + 1);
    } else {
      forall e | i < e <= |sizes| && Fits(sizes, i, e)
        ensures e <= j
      {
        if e > j {
          FitsPart(sizes, i, i, e, j + 1);
        }
      }
    }
  }

  lemma {:induction false} GreedyIsCut(sizes: seq<nat>, i: nat)
    requires i <= |sizes|
    ensures IsCut(sizes, i, GreedyEnds(sizes, i))
    decreases |sizes| - i
  {
    if i < |sizes| {
      FurthestIsMaximal(sizes, i, i + 1);
      var end := Furthest(sizes, i, i + 1);
      GreedyIsCut(sizes, end);
      assert GreedyEnds(sizes, i)[1..] == GreedyEnds(sizes, end);
    }
  }

  /** The greedy cut from `i` on needs no more batches than any cut that starts no later. */
  lemma {:induction false} GreedyIsOptimal(sizes: seq<nat>, i: nat, first: nat, other: seq<nat>)
    requires first <= i <= |sizes| && IsCut(sizes, first, other)
    ensures |GreedyEnds(sizes, i)| <= |other|
    decreases |sizes| - i
  {
    if i < |sizes| {
      FurthestIsMaximal(sizes, i, i + 1);
      if other[0] > i {
        FitsPart(sizes, first, i, other[0], other[0]);
      }
      GreedyIsOptimal(sizes, Furthest(sizes, i, i + 1), other[0], other[1..]);
    }
  }

  /** Feasible, complete and with the fewest requests. */
  lemma GreedyCutIsBest(sizes: seq<nat>)
    ensures IsCut(sizes, 0, GreedyEnds(sizes, 0))
    ensures forall other :: IsCut(sizes, 0, other) ==> |GreedyEnds(sizes, 0)| <= |other|
  {
    GreedyIsCut(sizes, 0);
    forall other | IsCut(sizes, 0, other)
      ensures |GreedyEnds(sizes, 0)| <= |other|
    {
      GreedyIsOptimal(sizes, 0, 0, other);
    }
  }

  // ----- the batches themselves -----

  function Slices<T>(items: seq<T>, sizes: seq<nat>, first: nat, ends: seq<nat>): (slices: seq<seq<T>>)
    requires |items| == |sizes| && first <= |sizes| && IsCut(sizes, first, ends)
    ensures |slices| == |ends|
    decreases |ends|
  {
    if ends == [] then []
    else [items[first..ends[0]]] + Slices(items, sizes, ends[0], ends[1..])
  }

  /** The greedy batches of items of these sizes. */
  function Batches<T>(items: seq<T>, sizes: seq<nat>): seq<seq<T>>
    requires |items| == |sizes|
  {
    GreedyIsCut(sizes, 0);
    Slices(items, sizes, 0, GreedyEnds(sizes, 0))
  }

  lemma {:induction false} RangeOfPart(sizes: seq<nat>, i: nat, j: nat, n: nat)
    requires i + n <= j <= |sizes|
    ensures RangeBytes(sizes[i..j], 0, n) == RangeBytes(sizes, i, i + n)
  {
    if n > 0 {
      RangeOfPart(sizes, i, j, n - 1);
    }
  }

  /** Every batch of a cut holds 1 to 1000 items, and at most 4 MiB unless it is a single item. */
  lemma {:induction false} SliceLimits<T>(items: seq<T>, sizes: seq<nat>, first: nat, ends: seq<nat>, k: nat)
    requires |items| == |sizes| && first <= |sizes| && IsCut(sizes, first, ends) && k < |ends|
    ensures var slices, slicedSizes := Slices(items, sizes, first, ends), Slices(sizes, sizes, first, ends);
            && 1 <= |slices[k]| == |slicedSizes[k]| <= 1000
            && (|slices[k]| == 1 || RangeBytes(slicedSizes[k], 0, |slicedSizes[k]|) <= 4 * 1024 * 1024)
    decreases |ends|
  {
    if k > 0 {
      SliceLimits(items, sizes, ends[0], ends[1..], k - 1);
    } else {
      RangeOfPart(sizes, first, ends[0], ends[0] - first);
    }
  }

  /** The batches of any cut are contiguous and concatenate to the list. */
  lemma {:induction false} SlicesCover<T>(items: seq<T>, sizes: seq<nat>, first: nat, ends: seq<nat>)
    requires |items| == |sizes| && first <= |sizes| && IsCut(sizes, first, ends)
    ensures Concat(Slices(items, sizes, first, ends)) == items[first..]
    decreases |ends|
  {
    if ends == [] {
      assert items[first..] == [];
    } else {
      SlicesCover(items, sizes, ends[0], ends[1..]);
      var slices := Slices(items, sizes, first, ends);
      assert slices[0] == items[first..ends[0]] && slices[1..] == Slices(items, sizes, ends[0], ends[1..]);
      assert items[first..] == items[first..ends[0]] + items[ends[0]..];
    }
  }
}
