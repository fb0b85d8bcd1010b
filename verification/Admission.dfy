// The queue size limit: the check in CreateTrainingJob is not atomic with the insert, so the bound has to count the
// creates that are past the check.
module Admission {
  import opened Entries
  import opened Protocol
  import opened Homes

  /** A goroutine that will still insert into the queue: a create past its size check, or a trainer putting back an
      entry it dequeued by mistake. */
  predicate WillInsert(th: Thread, q: QueueName) {
    || (th.Creating? && th.queue == q && th.step == ToEnqueue)
    || (th.Pulling? && th.lease.queue == q && th.pc.Holding?)
  }

  ghost function InFlight(s: State, q: QueueName): set<ThreadId> {
    set t | t in s.threads && WillInsert(s.threads[t], q)
  }

  function Size(s: State, q: QueueName): nat {
    |Jobs(s.entries, q)|
  }

  lemma {:induction false} InFlightChange(s: State, a: Action, q: QueueName, t: ThreadId)
    requires Enabled(s, a) && forall u | u != t :: !ActsFor(a, u)
    ensures var before, after := InFlight(s, q), InFlight(Apply(s, a), q);
            && |after| <= |before| + (if t in after then 1 else 0) - (if t in before then 1 else 0)
  {
    var before, after := InFlight(s, q), InFlight(Apply(s, a), q);
    forall u | u != t ensures u in after <==> u in before { OthersWait(s, a, u); }
    OneDifference(before, after, t);
  }

  lemma {:induction false} OneDifference(before: set<ThreadId>, after: set<ThreadId>, t: ThreadId)
    requires forall u | u != t :: u in after <==> u in before
    ensures |after| <= |before| + (if t in after then 1 else 0) - (if t in before then 1 else 0)
  {
    if t in after && t !in before { assert after == before + {t}; }
    else if t !in after && t in before { assert after == before - {t}; }
    else { assert after == before; }
  }

  /** One pull step never increases size plus pending inserts. */
  lemma {:induction false} PullKeepsLoad(s: State, t: ThreadId, op: PullOp, q: QueueName)
    requires HomeInv(s) && Enabled(s, Pull(t, op))
    ensures var s' := ApplyPull(s, t, op); Size(s', q) + |InFlight(s', q)| <= Size(s, q) + |InFlight(s, q)|
  {
    var s' := ApplyPull(s, t, op);
    InFlightChange(s, Pull(t, op), q, t);
    PullSize(s, t, op, q);
  }

  lemma {:induction false} PullSize(s: State, t: ThreadId, op: PullOp, q: QueueName)
    requires HomeInv(s) && Enabled(s, Pull(t, op))
    ensures var s' := ApplyPull(s, t, op);
            Size(s', q) + (if t in InFlight(s', q) then 1 else 0) <= Size(s, q) + (if t in InFlight(s, q) then 1 else 0)
  {
    match op
    case DropStale(key) => DropSize(s, t, key, q);
    case DequeueRemove => DequeueSize(s, t, q);
    case Reenqueue(stamp) => ReenqueueSize(s, t, stamp, q);
    case _ => OtherPullSize(s, t, op, q);
  }

  lemma {:induction false} DropSize(s: State, t: ThreadId, key: nat, q: QueueName)
    requires Enabled(s, Pull(t, DropStale(key)))
    ensures var s' := ApplyPull(s, t, DropStale(key)); Size(s', q) <= Size(s, q) && t !in InFlight(s', q)
  {
    RemoveSize(s.entries, key, q);
  }

  /** The entry put back takes the place it was counted for. */
  lemma {:induction false} ReenqueueSize(s: State, t: ThreadId, stamp: nat, q: QueueName)
    requires Enabled(s, Pull(t, Reenqueue(stamp)))
    ensures var s' := ApplyPull(s, t, Reenqueue(stamp));
            Size(s', q) <= Size(s, q) + (if t in InFlight(s, q) then 1 else 0) && t !in InFlight(s', q)
  {
    JobsAppend(s.entries, Entry(s.nextKey, s.threads[t].lease.queue, s.threads[t].pc.other, stamp), q);
  }

  lemma {:induction false} OtherPullSize(s: State, t: ThreadId, op: PullOp, q: QueueName)
    requires Enabled(s, Pull(t, op)) && !op.DropStale? && !op.DequeueRemove? && !op.Reenqueue?
    ensures var s' := ApplyPull(s, t, op); Size(s', q) == Size(s, q) && t !in InFlight(s', q)
  {
    EntriesChangeForPull(s, t, op);
  }

  /** The entry taken out makes room for the one the trainer may have to put back. */
  lemma {:induction false} DequeueSize(s: State, t: ThreadId, q: QueueName)
    requires HomeInv(s) && Enabled(s, Pull(t, DequeueRemove))
    ensures var s' := ApplyPull(s, t, DequeueRemove);
            Size(s', q) + (if t in InFlight(s', q) then 1 else 0) <= Size(s, q)
  {
    var e := s.threads[t].pc.entry;
    RemoveSize(s.entries, e.key, q);
    if e.queue == q { assert e in Jobs(s.entries, q); }
    assert ThreadHome(s, s.threads[t]);
  }

  lemma {:induction false} RemoveSize(entries: seq<Entry>, key: nat, q: QueueName)
    ensures |Jobs(RemoveEntry(entries, key), q)| <= |Jobs(entries, q)|
    ensures (exists e | e in Jobs(entries, q) :: e.key == key) ==>
      |Jobs(RemoveEntry(entries, key), q)| < |Jobs(entries, q)|
  {
    JobsRemove(entries, key, q);
    RemoveShrinks(Jobs(entries, q), key);
  }

  ghost function Load(s: State, q: QueueName): nat {
    Size(s, q) + |InFlight(s, q)|
  }

  lemma {:induction false} CreateKeepsLoad(s: State, t: ThreadId, op: CreateOp, q: QueueName)
    requires Enabled(s, Create(t, op))
    ensures Load(Apply(s, Create(t, op)), q) <= Load(s, q)
  {
    InFlightChange(s, Create(t, op), q, t);
    if op.Enqueue? { JobsAppend(s.entries, Entry(s.nextKey, s.threads[t].queue, s.threads[t].newId, op.stamp), q); }
  }

  lemma {:induction false} DeleteKeepsLoad(s: State, t: ThreadId, op: DeleteOp, q: QueueName)
    requires Enabled(s, Delete(t, op))
    ensures Load(Apply(s, Delete(t, op)), q) <= Load(s, q)
  {
    InFlightChange(s, Delete(t, op), q, t);
    if op.Take? { RemoveSize(s.entries, op.key, q); }
  }

  /** Only a create that reads a busy queue below the limit adds to the load. */
  lemma {:induction false} StepLoad(s: State, a: Action, q: QueueName)
    requires HomeInv(s) && Enabled(s, a) && s.limit > 0
    ensures || Load(Apply(s, a), q) <= Load(s, q)
            || (Size(Apply(s, a), q) < s.limit && a.CreateCheck?)
  {
    match a
    case Pull(t, op) => PullKeepsLoad(s, t, op, q);
    case Delete(t, op) => DeleteKeepsLoad(s, t, op, q);
    case Create(t, op) => CreateKeepsLoad(s, t, op, q);
    case CreateCheck(t, _, _, _, _) => InFlightChange(s, a, q, t);
    case PullLock(t, _, _, _) => InFlightChange(s, a, q, t);
    case DeleteLock(t, _, _, _, _) => InFlightChange(s, a, q, t);
    case _ => assert InFlight(Apply(s, a), q) == InFlight(s, q);
  }

  function Max(x: int, y: int): int {
    if x < y then y else x
  }

  /** Main result: with limit L > 0 and never more than k inserts in flight, the queue holds at most L - 1 + k jobs,
      or what it held at the start if that was more. No lease has to be in time. */
  lemma {:induction false} QueueBounded(ss: seq<State>, acts: seq<Action>, q: QueueName, k: nat)
    requires Behaviour(ss, acts) && Init(ss[0]) && ss[0].limit > 0
    requires forall i | 0 <= i < |ss| :: |InFlight(ss[i], q)| <= k
    ensures Load(Last(ss), q) <= Max(Size(ss[0], q), ss[0].limit - 1 + k)
    ensures Size(Last(ss), q) <= Max(Size(ss[0], q), ss[0].limit - 1 + k)
    ensures Last(ss).limit == ss[0].limit
    decreases |acts|
  {
    if acts == [] {
      assert InFlight(ss[0], q) == {};
    } else {
      var n := |acts| - 1;
      Shorter(ss, acts);
      HomeInvariant(ss[..|acts|], acts[..n]);
      QueueBounded(ss[..|acts|], acts[..n], q, k);
      StepLoad(ss[n], acts[n], q);
      LimitFixed(ss[n], acts[n]);
    }
  }

  lemma {:induction false} LimitFixed(s: State, a: Action)
    requires Enabled(s, a)
    ensures Apply(s, a).limit == s.limit
  {
  }
}
