// DataPartitioner: each rank of a distributed job shuffles the same index list with the same seed and keeps one slice.
module Partitioning {
  import opened Sequences

  /** Where Python's `s[0:k]` ends and `s[k:]` begins: a bound past the end is clipped, a negative one counts from the
      end. */
  function Clip(length: nat, k: int): (c: nat)
    ensures c <= length
  {
    if k > length then length else if k >= 0 then k else if length + k >= 0 then length + k else 0
  }

  /** `int(frac * data_len)`, truncating toward zero, with exact fractions. */
  function PartLen(frac: real, dataLen: nat): int {
    var x := frac * dataLen as real;
    if x >= 0.0 then x.Floor else -((-x).Floor)
  }

  /** The slices cut off an index list, one per fraction. */
  function Cuts(indexes: seq<nat>, sizes: seq<real>, dataLen: nat): (parts: seq<seq<nat>>)
    ensures |parts| == |sizes|
    decreases |sizes|
  {
    if sizes == [] then []
    else
      var partLen := Clip(|indexes|, PartLen(sizes[0], dataLen));
      [indexes[..partLen]] + Cuts(indexes[partLen..], sizes[1..], dataLen)
  }

  function Flatten(parts: seq<seq<nat>>): seq<nat> {
    if parts == [] then [] else parts[0] + Flatten(parts[1..])
  }

  /** The slices followed by what is left over are exactly the list, whatever the fractions. */
  lemma {:induction false} CutsCoverList(indexes: seq<nat>, sizes: seq<real>, dataLen: nat) returns (leftover: seq<nat>)
    ensures Flatten(Cuts(indexes, sizes, dataLen)) + leftover == indexes
    decreases |sizes|
  {
    if sizes == [] {
      leftover := indexes;
    } else {
      var partLen := Clip(|indexes|, PartLen(sizes[0], dataLen));
      leftover := CutsCoverList(indexes[partLen..], sizes[1..], dataLen);
      FlattenPrepend(indexes[..partLen], Cuts(indexes[partLen..], sizes[1..], dataLen), leftover);
      assert indexes == indexes[..partLen] + indexes[partLen..];
    }
  }

  lemma {:induction false} FlattenPrepend(part: seq<nat>, parts: seq<seq<nat>>, rest: seq<nat>)
    ensures Flatten([part] + parts) + rest == part + (Flatten(parts) + rest)
  {
  }

  /** The loop of the constructor moves one slice from the cuts still to come to those made. */
  lemma {:induction false} CutOne(made: seq<seq<nat>>, indexes: seq<nat>, sizes: seq<real>, k: nat, dataLen: nat)
    requires k < |sizes|
    ensures var partLen := Clip(|indexes|, PartLen(sizes[k], dataLen));
      made + Cuts(indexes, sizes[k..], dataLen)
      == made + [indexes[..partLen]] + Cuts(indexes[partLen..], sizes[k + 1..], dataLen)
  {
  }

  lemma {:induction false} PartInside(parts: seq<seq<nat>>, k: nat)
    requires k < |parts|
    ensures forall i | i in parts[k] :: i in Flatten(parts)
    decreases |parts|
  {
    if k > 0 { PartInside(parts[1..], k - 1); }
  }

  lemma {:induction false} PartsDisjoint(parts: seq<seq<nat>>, rest: seq<nat>, j: nat, k: nat, i: nat)
    requires Distinct(Flatten(parts) + rest) && j < k < |parts| && i in parts[j]
    ensures i !in parts[k]
    decreases |parts|
  {
    var tail := Flatten(parts[1..]) + rest;
    var all := Flatten(parts) + rest;
    assert all == parts[0] + tail;
    if j == 0 {
      var a :| 0 <= a < |parts[0]| && parts[0][a] == i;
      forall b | 0 <= b < |tail| ensures tail[b] != i { assert all[a] == i && all[|parts[0]| + b] == tail[b]; }
      assert i !in tail;
      PartInside(parts[1..], k - 1);
    } else {
      assert forall a, b | 0 <= a < b < |tail| :: tail[a] == all[|parts[0]| + a] && tail[b] == all[|parts[0]| + b];
      PartsDisjoint(parts[1..], rest, j - 1, k - 1, i);
    }
  }

  /** Main result: ranks that shuffled with the same seed, so that each cuts the same list with the same fractions, read
      disjoint examples, all of them in range. */
  lemma {:induction false} RanksReadDisjointData(shuffled: seq<nat>, sizes: seq<real>, dataLen: nat, j: nat, k: nat,
                                                 i: nat)
    requires Distinct(shuffled) && (forall x | x in shuffled :: x < dataLen)
    requires j < |sizes| && k < |sizes| && i in Cuts(shuffled, sizes, dataLen)[j]
    ensures i < dataLen
    ensures j != k ==> i !in Cuts(shuffled, sizes, dataLen)[k]
  {
    var parts := Cuts(shuffled, sizes, dataLen);
    var leftover := CutsCoverList(shuffled, sizes, dataLen);
    PartInside(parts, j);
    assert i in Flatten(parts) + leftover;
    if j < k {
      PartsDisjoint(parts, leftover, j, k, i);
    } else if k < j && i in parts[k] {
      PartsDisjoint(parts, leftover, k, j, i);
    }
  }

  // ---- how much each rank reads ----

  /** `int` drops the fraction: a part is the whole number next to the exact share, on the side of 0. */
  lemma {:induction false} PartLenTruncates(frac: real, dataLen: nat)
    ensures var share, part := frac * dataLen as real, PartLen(frac, dataLen) as real;
      && (share >= 0.0 ==> 0.0 <= part <= share < part + 1.0)
      && (share <= 0.0 ==> part - 1.0 < share <= part <= 0.0)
  {
  }

  predicate NonNegative(sizes: seq<real>) {
    forall k | 0 <= k < |sizes| :: sizes[k] >= 0.0
  }

  function Sum(sizes: seq<real>): real {
    if sizes == [] then 0.0 else sizes[0] + Sum(sizes[1..])
  }

  /** The numbers of examples the fractions call for. */
  function PartLens(sizes: seq<real>, dataLen: nat): (lens: seq<int>)
    ensures |lens| == |sizes| && forall k | 0 <= k < |sizes| :: lens[k] == PartLen(sizes[k], dataLen)
  {
    seq(|sizes|, k requires 0 <= k < |sizes| => PartLen(sizes[k], dataLen))
  }

  /** Where a slice begins: after those before it. */
  function Begin(lens: seq<int>, k: nat): int
    requires k <= |lens|
  {
    if k == 0 then 0 else lens[0] + Begin(lens[1..], k - 1)
  }

  lemma {:induction false} BeginGrows(lens: seq<int>, k: nat)
    requires k <= |lens| && forall i | 0 <= i < |lens| :: lens[i] >= 0
    ensures 0 <= Begin(lens, k) <= Begin(lens, |lens|)
    ensures k < |lens| ==> Begin(lens, k + 1) == Begin(lens, k) + lens[k]
    decreases |lens|
  {
    if lens != [] { BeginGrows(lens[1..], if k == 0 then 0 else k - 1); }
  }

  lemma {:induction false} Positive(x: real, n: real)
    requires x >= 0.0 && n >= 0.0
    ensures x * n >= 0.0
  {
  }

  lemma {:induction false} PartsPositive(sizes: seq<real>, dataLen: nat)
    requires NonNegative(sizes)
    ensures forall k | 0 <= k < |sizes| :: PartLens(sizes, dataLen)[k] >= 0
  {
    forall k | 0 <= k < |sizes| ensures PartLens(sizes, dataLen)[k] >= 0 {
      Positive(sizes[k], dataLen as real);
      PartLenTruncates(sizes[k], dataLen);
    }
  }

  lemma {:induction false} ShareOfSum(x: real, y: real, n: real)
    ensures (x + y) * n == x * n + y * n
  {
  }

  /** All slices together stay within the sum of the shares, and miss it by less than one example each. */
  lemma {:induction false} EndWithinShares(sizes: seq<real>, dataLen: nat)
    requires NonNegative(sizes)
    ensures var end := Begin(PartLens(sizes, dataLen), |sizes|) as real;
      Sum(sizes) * dataLen as real - |sizes| as real <= end <= Sum(sizes) * dataLen as real
    decreases |sizes|
  {
    if sizes != [] {
      EndWithinShares(sizes[1..], dataLen);
      Positive(sizes[0], dataLen as real);
      PartLenTruncates(sizes[0], dataLen);
      ShareOfSum(sizes[0], Sum(sizes[1..]), dataLen as real);
      RestOfParts(sizes, dataLen);
    }
  }

  lemma {:induction false} RestOfParts(sizes: seq<real>, dataLen: nat)
    requires sizes != []
    ensures PartLens(sizes, dataLen)[1..] == PartLens(sizes[1..], dataLen)
  {
  }

  /** The slices of given lengths. */
  function Slices(indexes: seq<nat>, lens: seq<int>): (parts: seq<seq<nat>>)
    ensures |parts| == |lens|
    decreases |lens|
  {
    if lens == [] then []
    else
      var len := Clip(|indexes|, lens[0]);
      [indexes[..len]] + Slices(indexes[len..], lens[1..])
  }

  lemma {:induction false} CutsAreSlices(indexes: seq<nat>, sizes: seq<real>, dataLen: nat)
    ensures Cuts(indexes, sizes, dataLen) == Slices(indexes, PartLens(sizes, dataLen))
    decreases |sizes|
  {
    if sizes != [] {
      RestOfParts(sizes, dataLen);
      CutsAreSlices(indexes[Clip(|indexes|, PartLen(sizes[0], dataLen))..], sizes[1..], dataLen);
    }
  }

  /** Slices that all fit into the list have their full lengths. */
  lemma {:induction false} SlicesFit(indexes: seq<nat>, lens: seq<int>, k: nat)
    requires k < |lens| && (forall i | 0 <= i < |lens| :: lens[i] >= 0) && Begin(lens, |lens|) <= |indexes|
    ensures 0 <= Begin(lens, k) <= Begin(lens, k + 1) <= |indexes|
    ensures Slices(indexes, lens)[k] == indexes[Begin(lens, k)..Begin(lens, k + 1)]
    decreases |lens|
  {
    BeginGrows(lens, k);
    BeginGrows(lens, k + 1);
    BeginGrows(lens[1..], 0);
    if k > 0 {
      SlicesFit(indexes[lens[0]..], lens[1..], k - 1);
      SliceOfRest(indexes, lens[0], Begin(lens[1..], k - 1), Begin(lens[1..], k));
    }
  }

  lemma {:induction false} SliceOfRest(indexes: seq<nat>, first: nat, from: nat, to: nat)
    requires from <= to && first + to <= |indexes|
    ensures indexes[first..][from..to] == indexes[first + from..first + to]
  {
  }

  /** Main result: when the fractions are not negative and add up to at most 1, rank `k` reads `int(fraction * n)`
      examples, the next ones of the shuffled list after those of the ranks before it; and when they add up to 1, no
      more examples are left unread than there are ranks. */
  lemma {:induction false} RanksReadTheirShares(shuffled: seq<nat>, sizes: seq<real>, k: nat)
    requires NonNegative(sizes) && Sum(sizes) <= 1.0 && k < |sizes|
    ensures var n, lens := |shuffled|, PartLens(sizes, |shuffled|);
      && 0 <= Begin(lens, k) <= Begin(lens, k + 1) <= n && Begin(lens, k + 1) == Begin(lens, k) + lens[k]
      && Cuts(shuffled, sizes, n)[k] == shuffled[Begin(lens, k)..Begin(lens, k + 1)]
      && (Sum(sizes) == 1.0 ==> n - |sizes| <= Begin(lens, |lens|) <= n)
  {
    var lens := PartLens(sizes, |shuffled|);
    AllFit(sizes, |shuffled|);
    BeginGrows(lens, k);
    CutsAreSlices(shuffled, sizes, |shuffled|);
    SlicesFit(shuffled, lens, k);
  }

  lemma {:induction false} AllFit(sizes: seq<real>, n: nat)
    requires NonNegative(sizes) && Sum(sizes) <= 1.0
    ensures var lens := PartLens(sizes, n);
      && (forall k | 0 <= k < |lens| :: lens[k] >= 0)
      && Begin(lens, |lens|) <= n && (Sum(sizes) == 1.0 ==> n - |sizes| <= Begin(lens, |lens|))
  {
    PartsPositive(sizes, n);
    EndWithinShares(sizes, n);
    WithinAll(Begin(PartLens(sizes, n), |sizes|), Sum(sizes), n, |sizes|);
  }

  lemma {:induction false} WithinAll(end: int, sum: real, n: nat, ranks: nat)
    requires sum * n as real - ranks as real <= end as real <= sum * n as real && sum <= 1.0
    ensures end <= n && (sum == 1.0 ==> n - ranks <= end)
  {
    Positive(1.0 - sum, n as real);
    ShareOfSum(sum, 1.0 - sum, n as real);
    assert end as real <= n as real;
  }

  class Partition<T> {
    const data: seq<T>
    const index: seq<nat>

    constructor (data: seq<T>, index: seq<nat>)
      ensures this.data == data && this.index == index
    {
      this.data := data;
      this.index := index;
    }
  }

  class DataPartitioner<T> {
    const data: seq<T>
    var partitions: seq<seq<nat>>
    ghost const shuffled: seq<nat>
    ghost const sizes: seq<real>

    /** The partitions are the successive slices of one arrangement of the indexes. */
    ghost predicate Valid()
      reads this
    {
      && Distinct(shuffled) && (forall i | i in shuffled :: i < |data|)
      && partitions == Cuts(shuffled, sizes, |data|)
    }

    /** `shuffled` is what the seeded generator makes of 0, 1, ..., |data| - 1. */
    constructor (data: seq<T>, sizes: seq<real>, shuffled: seq<nat>)
      requires Distinct(shuffled) && forall i | i in shuffled :: i < |data|
      ensures Valid() && this.data == data && this.sizes == sizes && this.shuffled == shuffled
    {
      this.data := data;
      this.partitions := [];
      this.shuffled := shuffled;
      this.sizes := sizes;
      new;
      var indexes := shuffled;
      for k := 0 to |sizes|
        invariant partitions + Cuts(indexes, sizes[k..], |data|) == Cuts(shuffled, sizes, |data|)
      {
        var partLen := Clip(|indexes|, PartLen(sizes[k], |data|));
        CutOne(partitions, indexes, sizes, k, |data|);
        partitions := partitions + [indexes[0..partLen]];
        indexes := indexes[partLen..];
      }
    }

    /** The examples of a rank exist, and no other rank reads any of them. */
    method Use(rank: nat) returns (p: Partition<T>)
      requires Valid() && rank < |partitions|
      ensures p.data == data && p.index == partitions[rank]
      ensures forall i | i in p.index ::
        i < |data| && forall k | 0 <= k < |partitions| && k != rank :: i !in partitions[k]
    {
      forall i, k | i in partitions[rank] && 0 <= k < |partitions| && k != rank
        ensures i < |data| && i !in partitions[k] {
        RanksReadDisjointData(shuffled, sizes, |data|, rank, k, i);
      }
      forall i | i in partitions[rank] ensures i < |data| {
        RanksReadDisjointData(shuffled, sizes, |data|, rank, rank, i);
      }
      p := new Partition(data, partitions[rank]);
    }
  }
}
