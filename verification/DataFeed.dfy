// DataSet.next_batch: the epoch and batch state of the training data feed. The shuffle is a parameter of each call.
module DataFeed {
  import opened Wrappers
  import opened Sequences

  /** A permutation of 0..n, as numpy.random.shuffle leaves one. */
  ghost predicate IsPermutation(perm: seq<nat>, n: nat) {
    && |perm| == n
    && (forall i | 0 <= i < n :: perm[i] < n)
    && (forall i, j | 0 <= i < j < n :: perm[i] != perm[j])
  }

  /** `a[perm]` in numpy. */
  function Gather<T>(a: seq<T>, perm: seq<nat>): (r: seq<T>)
    requires forall i | 0 <= i < |perm| :: perm[i] < |a|
    ensures |r| == |perm| && forall i | 0 <= i < |perm| :: r[i] == a[perm[i]]
  {
    seq(|perm|, i requires 0 <= i < |perm| => a[perm[i]])
  }

  lemma {:induction false} GatherSlice<T>(a: seq<T>, perm: seq<nat>, start: nat, end: nat)
    requires start <= end <= |perm| && forall i | 0 <= i < |perm| :: perm[i] < |a|
    ensures Gather(a, perm)[start..end] == Gather(a, perm[start..end])
  {
  }

  /** Shuffling an arrangement of the examples gives an arrangement of the examples. */
  lemma {:induction false} ShufflePermutes(order: seq<nat>, perm: seq<nat>, n: nat)
    requires IsPermutation(order, n) && IsPermutation(perm, n)
    ensures IsPermutation(Gather(order, perm), n)
  {
  }

  // ---- the feed in terms of example numbers ----

  /** `order[k]` is the example now at position k. */
  datatype Feed = Feed(order: seq<nat>, epochs: nat, index: nat)

  /** One call. None is the failed assertion on a batch larger than the data set, which leaves its changes behind. */
  function Next(f: Feed, batch: nat, perm: seq<nat>): (r: (Feed, Option<seq<nat>>))
    requires forall i | 0 <= i < |perm| :: perm[i] < |f.order|
  {
    if f.index + batch > |f.order| then
      var f' := Feed(Gather(f.order, perm), f.epochs + 1, batch);
      (f', if batch <= |f'.order| then Some(f'.order[..batch]) else None)
    else
      (f.(index := f.index + batch), Some(f.order[f.index..f.index + batch]))
  }

  datatype Call = Call(batch: nat, perm: seq<nat>)

  /** The feed after a run of calls, and the examples served since the last shuffle. */
  ghost function Play(f: Feed, calls: seq<Call>, n: nat): (Feed, seq<nat>)
    requires IsPermutation(f.order, n) && forall c | c in calls :: IsPermutation(c.perm, n)
    ensures IsPermutation(Play(f, calls, n).0.order, n)
  {
    if calls == [] then (f, [])
    else
      var c := calls[|calls| - 1];
      assert c in calls && (forall d | d in calls[..|calls| - 1] :: d in calls) && IsPermutation(c.perm, n);
      var (before, served) := Play(f, calls[..|calls| - 1], n);
      var (after, batch) := Next(before, c.batch, c.perm);
      ShufflePermutes(before.order, c.perm, n);
      (after, (if after.epochs == before.epochs then served else []) + if batch.Some? then batch.value else [])
  }

  /** What one epoch has served so far is the beginning of its arrangement. */
  predicate ServedPrefix(f: Feed, served: seq<nat>) {
    served == if f.index <= |f.order| then f.order[..f.index] else []
  }

  lemma {:induction false} NextServes(f: Feed, served: seq<nat>, batch: nat, perm: seq<nat>)
    requires (forall i | 0 <= i < |perm| :: perm[i] < |f.order|) && |perm| == |f.order| && ServedPrefix(f, served)
    ensures var (f', r) := Next(f, batch, perm);
      ServedPrefix(f', (if f'.epochs == f.epochs then served else []) + if r.Some? then r.value else [])
  {
  }

  lemma {:induction false} PlayServesPrefix(calls: seq<Call>, f: Feed, n: nat)
    requires IsPermutation(f.order, n) && f.index == 0 && forall c | c in calls :: IsPermutation(c.perm, n)
    ensures ServedPrefix(Play(f, calls, n).0, Play(f, calls, n).1)
    decreases |calls|
  {
    if calls != [] {
      var c, front := calls[|calls| - 1], calls[..|calls| - 1];
      assert c in calls && forall d | d in front :: d in calls;
      PlayServesPrefix(front, f, n);
      var (before, served) := Play(f, front, n);
      NextServes(before, served, c.batch, c.perm);
    }
  }

  /** Main result: over any run the examples stay a permutation of the original ones, what one epoch has served is the
      beginning of its arrangement, and so no example is served twice in an epoch. */
  lemma {:induction false} NoRepeatsInEpoch(calls: seq<Call>, f: Feed, n: nat)
    requires IsPermutation(f.order, n) && f.index == 0 && forall c | c in calls :: IsPermutation(c.perm, n)
    ensures var (f', served) := Play(f, calls, n);
      IsPermutation(f'.order, n) && ServedPrefix(f', served) && Distinct(served)
  {
    PlayServesPrefix(calls, f, n);
  }

  // ---- epochs with a constant batch size ----

  lemma {:induction false} BatchesPerEpoch(n: nat, b: nat, done: nat)
    requires 0 < b <= n && 1 <= done <= n / b
    ensures done * b <= n
    ensures done * b + b > n <==> done == n / b
  {
    var m := n / b;
    assert m * b <= n < m * b + b;
    assert done * b <= m * b;
    if done < m { assert (done + 1) * b <= m * b; }
  }

  ghost predicate Constant(calls: seq<Call>, b: nat, n: nat) {
    forall c | c in calls :: c.batch == b && IsPermutation(c.perm, n)
  }

  /** With a constant batch size b <= n, k calls complete (k - 1) div (n div b) epochs. */
  lemma {:induction false} EpochsCompleted(calls: seq<Call>, f: Feed, n: nat, b: nat)
    requires IsPermutation(f.order, n) && f.index == 0 && f.epochs == 0
    requires 0 < b <= n && Constant(calls, b, n) && calls != []
    ensures n / b >= 1
    ensures Play(f, calls, n).0.epochs == (|calls| - 1) / (n / b)
    ensures Play(f, calls, n).0.index == ((|calls| - 1) % (n / b) + 1) * b
    decreases |calls|
  {
    var k := |calls|;
    QuotientPositive(n, b);
    assert calls[k - 1] in calls;
    if k > 1 {
      EpochsCompleted(calls[..k - 1], f, n, b);
      ConstantStep(Play(f, calls[..k - 1], n).0, calls[k - 1].perm, n, b, k - 2);
    } else {
      assert 0 / (n / b) == 0 && 0 % (n / b) == 0;
    }
  }

  lemma {:induction false} QuotientPositive(n: nat, b: nat)
    requires 0 < b <= n
    ensures n / b >= 1
  {
  }

  /** One more call of constant batch size, after `x + 1` of them. */
  lemma {:induction false} ConstantStep(f: Feed, perm: seq<nat>, n: nat, b: nat, x: nat)
    requires 0 < b <= n && n / b >= 1 && IsPermutation(f.order, n) && IsPermutation(perm, n)
    requires f.epochs == x / (n / b) && f.index == (x % (n / b) + 1) * b
    ensures Next(f, b, perm).0.epochs == (x + 1) / (n / b)
    ensures Next(f, b, perm).0.index == ((x + 1) % (n / b) + 1) * b
  {
    var done := x % (n / b) + 1;
    BatchesPerEpoch(n, b, done);
    NextQuotient(x, n / b);
    assert (done + 1) * b == done * b + b;
  }

  lemma {:induction false} NextQuotient(x: nat, m: nat)
    requires m >= 1
    ensures x % m + 1 == m ==> (x + 1) / m == x / m + 1 && (x + 1) % m == 0
    ensures x % m + 1 < m ==> (x + 1) / m == x / m && (x + 1) % m == x % m + 1
  {
    var q, r := x / m, x % m;
    assert x == q * m + r;
    if r + 1 == m {
      assert x + 1 == (q + 1) * m;
      DivUnique(x + 1, m, q + 1, 0);
    } else {
      DivUnique(x + 1, m, q, r + 1);
    }
  }

  lemma {:induction false} DivUnique(x: nat, m: nat, q: nat, r: nat)
    requires x == q * m + r && r < m
    ensures x / m == q && x % m == r
  {
    var d := x / m - q;
    assert d * m == r - x % m;
    assert d == 0;
  }

  // ---- the class ----

  class DataSet<I, L> {
    var images: seq<I>
    var labels: seq<L>
    var epochsCompleted: nat
    var indexInEpoch: nat
    const numExamples: nat
    ghost const originalImages: seq<I>
    ghost const originalLabels: seq<L>
    ghost var order: seq<nat>

    /** Images and labels are the original ones in one common arrangement. */
    ghost predicate Valid()
      reads this
    {
      && |originalImages| == |originalLabels| == numExamples
      && IsPermutation(order, numExamples)
      && images == Gather(originalImages, order)
      && labels == Gather(originalLabels, order)
    }

    ghost function State(): Feed
      reads this
    {
      Feed(order, epochsCompleted, indexInEpoch)
    }

    /** The images and labels of numbered examples. */
    ghost function Served(examples: Option<seq<nat>>): Option<(seq<I>, seq<L>)>
      requires |originalImages| == |originalLabels| == numExamples
      requires examples.Some? ==> forall k | 0 <= k < |examples.value| :: examples.value[k] < numExamples
    {
      match examples
      case None => None
      case Some(es) => Some((Gather(originalImages, es), Gather(originalLabels, es)))
    }

    constructor (images: seq<I>, labels: seq<L>)
      requires |images| == |labels|
      ensures Valid() && State().epochs == 0 && State().index == 0
      ensures originalImages == images && originalLabels == labels
    {
      this.images := images;
      this.labels := labels;
      numExamples := |images|;
      epochsCompleted := 0;
      indexInEpoch := 0;
      originalImages := images;
      originalLabels := labels;
      order := seq(|images|, i => i);
    }

    /** With `fakeData` the batch is as many copies of one made-up example, and the data set is left alone. */
    method NextBatch(batchSize: nat, perm: seq<nat>, fakeData: bool, fakeImage: I, fakeLabel: L)
      returns (r: Option<(seq<I>, seq<L>)>)
      requires Valid() && IsPermutation(perm, numExamples)
      modifies this
      ensures Valid()
      ensures fakeData ==> State() == old(State()) && r.Some? && |r.value.0| == batchSize == |r.value.1|
      ensures fakeData ==> forall i | 0 <= i < batchSize :: r.value.0[i] == fakeImage && r.value.1[i] == fakeLabel
      ensures !fakeData ==> State() == Next(old(State()), batchSize, perm).0
      ensures !fakeData ==> r == Served(Next(old(State()), batchSize, perm).1)
    {
      if fakeData {
        return Some((seq(batchSize, _ => fakeImage), seq(batchSize, _ => fakeLabel)));
      }
      var start := indexInEpoch;
      indexInEpoch := indexInEpoch + batchSize;
      if indexInEpoch > numExamples {
        epochsCompleted := epochsCompleted + 1;
        ShufflePermutes(order, perm, numExamples);
        images := Gather(images, perm);
        labels := Gather(labels, perm);
        order := Gather(order, perm);
        start := 0;
        indexInEpoch := batchSize;
        if batchSize > numExamples { return None; }
      }
      var end := indexInEpoch;
      GatherSlice(originalImages, order, start, end);
      GatherSlice(originalLabels, order, start, end);
      return Some((images[start..end], labels[start..end]));
    }
  }
}
