// No overtaking: the jobs of one queue reach LCM in creation order, directly submitted ones included, and the branch
// "this should never happen" of pullJobFromQueue is indeed never taken.
module Fifo {
  import opened Wrappers
  import opened Entries
  import opened Protocol
  import opened Homes
  import opened Leases
  import NoLoss
  import AtMostOnce

  // ---- the runs this holds for ----

  predicate Stamped(s: State, a: Action) {
    && (a.Pull? && a.pull.Reenqueue? ==> a.pull.stamp == s.now)
    && (a.Create? && a.create.Enqueue? ==> a.create.stamp == s.now)
  }

  /** Sections act only within their lease, the clock is the same everywhere, and the size query succeeds. */
  predicate Punctual(s: State, a: Action) {
    && (a.Pull? || a.Delete? ==> InTime(s, a.t) || (a.Delete? && a.t in s.threads && s.threads[a.t].Erasing?))
    && Stamped(s, a)
    && (a.CreateCheck? ==> a.sizeOk)
  }

  /** A create for the queue has checked its size and has neither put its entry in nor sent its job to LCM. */
  predicate Pending(th: Thread, q: QueueName) {
    th.Creating? && th.queue == q && th.step != ToStore
  }

  predicate IsPending(s: State, t: ThreadId, q: QueueName) {
    t in s.threads && Pending(s.threads[t], q)
  }

  /** In addition no create checks the size of a queue while another create for that queue is pending. */
  ghost predicate Orderly(s: State, a: Action) {
    && Punctual(s, a)
    && (a.CreateCheck? ==> forall t :: !IsPending(s, t, a.q))
  }

  // ---- the invariant ----

  predicate Older(s: State, x: TrainingId, y: TrainingId)
    requires x in s.home && y in s.home
  {
    s.home[x].number <= s.home[y].number
  }

  /** `e` was inserted first among the entries of its queue. */
  predicate IsHead(entries: seq<Entry>, e: Entry) {
    e in entries && forall f | f in entries && f.queue == e.queue :: e.key <= f.key
  }

  ghost predicate BirthInv(s: State) {
    forall id | id in s.home :: s.home[id].number < s.births
  }

  /** Entries of one queue: later inserted, later submitted, later created. */
  ghost predicate EntriesOrdered(s: State)
    requires BirthInv(s) && HomeInv(s)
  {
    && (forall e | e in s.entries :: e.submitted <= s.now)
    && (forall e, f | e in s.entries && f in s.entries && e.queue == f.queue && e.key < f.key ::
          e.submitted <= f.submitted && s.home[e.id].number < s.home[f.id].number)
  }

  ghost predicate DeployedOrdered(s: State)
    requires BirthInv(s) && HomeInv(s)
  {
    && (forall d | d in s.deployed :: d in s.home)
    && (forall d, e | d in s.deployed && e in s.entries && s.home[d].queue == e.queue :: Older(s, d, e.id))
    && (forall i, j | 0 <= i < j < |s.deployed| && s.home[s.deployed[i]].queue == s.home[s.deployed[j]].queue ::
          Older(s, s.deployed[i], s.deployed[j]))
  }

  predicate PastPeek(pc: PullPc) {
    pc.Peeked? || pc.Found? || pc.Stored? || pc.Sent? || pc.Removing?
  }

  /** What a thread between Peek and Dequeue knows: its job is at the head of the queue. */
  ghost predicate AtHead(s: State, th: Thread)
    requires th.Pulling?
  {
    PastPeek(th.pc) ==>
      exists e :: IsHead(s.entries, e) && e.queue == th.lease.queue && e.id == th.pc.id
        && (th.pc.Removing? ==> th.pc.entry == e)
  }

  ghost predicate CreateOk(s: State, th: Thread)
    requires th.Creating? && BirthInv(s)
  {
    && th.newId in s.home && s.home[th.newId].queue == th.queue
    && (th.step != ToStore ==> forall id | id in s.home && id != th.newId && s.home[id].queue == th.queue ::
          s.home[id].number < s.home[th.newId].number)
    && (th.step == ToEnqueue ==> forall e | e in s.entries :: e.id != th.newId)
    && (th.step == ToSubmit || th.step == ToDeploy ==> forall e | e in s.entries :: e.queue != th.queue)
  }

  ghost predicate ThreadsOrdered(s: State)
    requires BirthInv(s)
  {
    && (forall t | t in s.threads && s.threads[t].Pulling? :: !s.threads[t].pc.Holding?)
    && (forall t | InTime(s, t) && s.threads[t].Pulling? :: AtHead(s, s.threads[t]))
    && (forall t | t in s.threads && s.threads[t].Creating? :: CreateOk(s, s.threads[t]))
    && (forall t, u, q | IsPending(s, t, q) && IsPending(s, u, q) :: t == u)
  }

  ghost predicate Inv(s: State) {
    && NoLoss.KeysUnique(s) && HomeInv(s) && LeaseInv(s) && InTimeHolds(s)
    && BirthInv(s) && EntriesOrdered(s) && DeployedOrdered(s) && ThreadsOrdered(s)
  }

  // ---- its preservation ----

  /** With a monotone clock the first inserted entry is the one Sort("submitted") yields. */
  lemma {:induction false} HeadIsEarliest(s: State, q: QueueName)
    requires NoLoss.KeysUnique(s) && BirthInv(s) && HomeInv(s) && EntriesOrdered(s) && Earliest(s.entries, q).Some?
    ensures IsHead(s.entries, Earliest(s.entries, q).value)
    ensures forall e | IsHead(s.entries, e) && e.queue == q :: e == Earliest(s.entries, q).value
  {
  }

  lemma {:induction false} StepBirthInv(s: State, a: Action)
    requires BirthInv(s) && Enabled(s, a)
    ensures BirthInv(Apply(s, a))
  {
  }

  /** Only a create inserts: nobody holds an entry to put back. */
  lemma {:induction false} EntryBefore(s: State, a: Action, e: Entry)
    requires Inv(s) && Enabled(s, a) && Orderly(s, a) && e in Apply(s, a).entries && e !in s.entries
    ensures a.Create? && a.create.Enqueue?
    ensures e == Entry(s.nextKey, s.threads[a.t].queue, s.threads[a.t].newId, s.now)
  {
    EntriesChange(s, a);
    assert e in InsertedBy(s, a);
  }

  lemma {:induction false} StepEntriesOrdered(s: State, a: Action)
    requires Inv(s) && Enabled(s, a) && Orderly(s, a) && HomeInv(Apply(s, a)) && BirthInv(Apply(s, a))
    ensures EntriesOrdered(Apply(s, a))
  {
    var s' := Apply(s, a);
    forall e | e in s'.entries ensures e.submitted <= s'.now { EntryStamped(s, a, e); }
    forall e, f | e in s'.entries && f in s'.entries && e.queue == f.queue && e.key < f.key
      ensures e.submitted <= f.submitted && s'.home[e.id].number < s'.home[f.id].number
    {
      PairStaysOrdered(s, a, e, f);
    }
  }

  lemma {:induction false} EntryStamped(s: State, a: Action, e: Entry)
    requires Inv(s) && Enabled(s, a) && Orderly(s, a) && e in Apply(s, a).entries
    ensures e.submitted <= Apply(s, a).now
  {
    EntriesChange(s, a);
    if e !in s.entries { EntryBefore(s, a, e); }
  }

  lemma {:induction false} PairStaysOrdered(s: State, a: Action, e: Entry, f: Entry)
    requires Inv(s) && Enabled(s, a) && Orderly(s, a) && HomeInv(Apply(s, a))
    requires e in Apply(s, a).entries && f in Apply(s, a).entries && e.queue == f.queue && e.key < f.key
    ensures e.id in Apply(s, a).home && f.id in Apply(s, a).home && e.submitted <= f.submitted
    ensures Apply(s, a).home[e.id].number < Apply(s, a).home[f.id].number
  {
    History(s, a);
    if e !in s.entries { EntryBefore(s, a, e); }
    if f !in s.entries {
      EntryBefore(s, a, f);
      assert CreateOk(s, s.threads[a.t]);
    }
  }

  /** The removed entry belongs to the queue of a thread that is inside its section and in time. */
  lemma {:induction false} WhoRemoves(s: State, a: Action, e: Entry)
    requires Inv(s) && Enabled(s, a) && Orderly(s, a) && e in s.entries && e !in Apply(s, a).entries
    ensures (a.Pull? || a.Delete?) && InTime(s, a.t) && s.threads[a.t].lease.queue == e.queue
  {
    EntriesChange(s, a);
    assert RemovedBy(s, a) == Some(e.key);
    if a.Pull? { assert ThreadHome(s, s.threads[a.t]); }
  }

  lemma {:induction false} HeadStays(s: State, a: Action, t: ThreadId, e: Entry)
    requires Inv(s) && Enabled(s, a) && Orderly(s, a) && InTime(s, t) && !ActsFor(a, t)
    requires IsHead(s.entries, e) && e.queue == s.threads[t].lease.queue
    ensures IsHead(Apply(s, a).entries, e)
  {
    var s' := Apply(s, a);
    if e !in s'.entries {
      WhoRemoves(s, a, e);
      assert Holds(s, t) && Holds(s, a.t);
      HoldersExclude(s, t, a.t);
    }
    forall f | f in s'.entries && f.queue == e.queue ensures e.key <= f.key {
      if f !in s.entries { EntryBefore(s, a, f); }
    }
  }

  lemma {:induction false} PullerStaysAtHead(s: State, t: ThreadId, op: PullOp)
    requires Inv(s) && Enabled(s, Pull(t, op)) && InTime(s, t) && t in ApplyPull(s, t, op).threads
    ensures var th := ApplyPull(s, t, op).threads[t]; AtHead(ApplyPull(s, t, op), th) && !th.pc.Holding?
  {
    assert AtHead(s, s.threads[t]);
    if op.Peek? || op.DequeueFind? { PullerReadsHead(s, t, op); }
  }

  lemma {:induction false} PullerReadsHead(s: State, t: ThreadId, op: PullOp)
    requires Inv(s) && Enabled(s, Pull(t, op)) && InTime(s, t) && (op.Peek? || op.DequeueFind?)
    ensures AtHead(ApplyPull(s, t, op), ApplyPull(s, t, op).threads[t])
  {
    assert AtHead(s, s.threads[t]);
    HeadIsEarliest(s, s.threads[t].lease.queue);
  }

  lemma {:induction false} StepAtHead(s: State, a: Action, t: ThreadId)
    requires Inv(s) && Enabled(s, a) && Orderly(s, a) && InTime(Apply(s, a), t) && Apply(s, a).threads[t].Pulling?
    ensures AtHead(Apply(s, a), Apply(s, a).threads[t])
  {
    if !ActsFor(a, t) {
      OthersWait(s, a, t);
      EntriesChange(s, a);
      WaiterStaysAtHead(s, a, t);
    } else if a.Pull? {
      PullerStaysAtHead(s, t, a.pull);
    }
  }

  lemma {:induction false} WaiterStaysAtHead(s: State, a: Action, t: ThreadId)
    requires Inv(s) && Enabled(s, a) && Orderly(s, a) && !ActsFor(a, t) && InTime(s, t) && s.threads[t].Pulling?
    ensures AtHead(Apply(s, a), s.threads[t])
  {
    assert AtHead(s, s.threads[t]);
    if PastPeek(s.threads[t].pc) {
      var e :| IsHead(s.entries, e) && e.queue == s.threads[t].lease.queue && e.id == s.threads[t].pc.id
               && (s.threads[t].pc.Removing? ==> s.threads[t].pc.entry == e);
      HeadStays(s, a, t, e);
    }
  }

  lemma {:induction false} StepNoneHolding(s: State, a: Action, t: ThreadId)
    requires Inv(s) && Enabled(s, a) && Orderly(s, a) && t in Apply(s, a).threads && Apply(s, a).threads[t].Pulling?
    ensures !Apply(s, a).threads[t].pc.Holding?
  {
    if !ActsFor(a, t) {
      OthersWait(s, a, t);
    } else if a.Pull? {
      PullerStaysAtHead(s, t, a.pull);
    }
  }

  lemma {:induction false} StepCreateOk(s: State, a: Action, t: ThreadId)
    requires Inv(s) && Enabled(s, a) && Orderly(s, a) && BirthInv(Apply(s, a))
    requires t in Apply(s, a).threads && Apply(s, a).threads[t].Creating?
    ensures CreateOk(Apply(s, a), Apply(s, a).threads[t])
  {
    if !ActsFor(a, t) {
      OthersWait(s, a, t);
      WaitingCreateOk(s, a, t);
    } else if a.CreateCheck? {
      NewCreateOk(s, a);
    } else {
      RunningCreateOk(s, a);
    }
  }

  /** Nothing that others may do meanwhile disturbs a create. */
  lemma {:induction false} WaitingCreateOk(s: State, a: Action, t: ThreadId)
    requires Inv(s) && Enabled(s, a) && Orderly(s, a) && BirthInv(Apply(s, a))
    requires t in s.threads && s.threads[t].Creating? && !ActsFor(a, t)
    ensures CreateOk(Apply(s, a), s.threads[t])
  {
    var th, s' := s.threads[t], Apply(s, a);
    assert CreateOk(s, th);
    History(s, a);
    HomesGrow(s, a);
    if th.step != ToStore {
      assert IsPending(s, t, th.queue);
      forall e | e in s'.entries && e !in s.entries ensures e.queue != th.queue && e.id != th.newId {
        OthersInsertElsewhere(s, a, t, e);
      }
    }
  }

  lemma {:induction false} HomesGrow(s: State, a: Action)
    requires Enabled(s, a)
    ensures Apply(s, a).home == if a.CreateCheck? then s.home[a.id := Birth(a.q, s.births)] else s.home
  {
    if a.Pull? { HistoryForPull(s, a.t, a.pull); }
  }

  /** Another create inserts into another queue while this one is pending. */
  lemma {:induction false} OthersInsertElsewhere(s: State, a: Action, t: ThreadId, e: Entry)
    requires Inv(s) && Enabled(s, a) && Orderly(s, a) && t in s.threads && s.threads[t].Creating? && !ActsFor(a, t)
    requires e in Apply(s, a).entries && e !in s.entries && s.threads[t].step != ToStore
    ensures e.queue != s.threads[t].queue && e.id != s.threads[t].newId
  {
    EntryBefore(s, a, e);
    assert CreateOk(s, s.threads[t]) && CreateOk(s, s.threads[a.t]);
    assert IsPending(s, t, s.threads[t].queue) && IsPending(s, a.t, s.threads[a.t].queue);
  }

  lemma {:induction false} StepPendingUnique(s: State, a: Action, t: ThreadId, u: ThreadId, q: QueueName)
    requires Inv(s) && Enabled(s, a) && Orderly(s, a) && IsPending(Apply(s, a), t, q) && IsPending(Apply(s, a), u, q)
    ensures t == u
  {
    PendingBefore(s, a, t, q);
    PendingBefore(s, a, u, q);
  }

  lemma {:induction false} PendingBefore(s: State, a: Action, t: ThreadId, q: QueueName)
    requires Enabled(s, a) && IsPending(Apply(s, a), t, q)
    ensures IsPending(s, t, q) || (a.CreateCheck? && a.t == t && a.q == q)
  {
    if !ActsFor(a, t) { OthersWait(s, a, t); }
  }

  lemma {:induction false} RunningCreateOk(s: State, a: Action)
    requires Inv(s) && Enabled(s, a) && a.Create? && BirthInv(Apply(s, a)) && a.t in Apply(s, a).threads
    ensures Apply(s, a).threads[a.t].Creating? && CreateOk(Apply(s, a), Apply(s, a).threads[a.t])
  {
    assert CreateOk(s, s.threads[a.t]);
  }

  lemma {:induction false} NewCreateOk(s: State, a: Action)
    requires Inv(s) && Enabled(s, a) && Orderly(s, a) && a.CreateCheck? && BirthInv(Apply(s, a))
    ensures CreateOk(Apply(s, a), Apply(s, a).threads[a.t])
  {
  }

  /** The job being sent is the oldest of its queue that is still to come. */
  lemma {:induction false} SentIsOldest(s: State, a: Action, id: TrainingId)
    requires Inv(s) && Enabled(s, a) && Orderly(s, a) && SentBy(s, a) == [id]
    ensures id in s.home
    ensures forall e | e in s.entries && e.queue == s.home[id].queue :: Older(s, id, e.id)
    ensures forall d | d in s.deployed && s.home[d].queue == s.home[id].queue :: Older(s, d, id)
  {
  }

  lemma {:induction false} StepDeployedBeforeEntries(s: State, a: Action, d: TrainingId, e: Entry)
    requires Inv(s) && Enabled(s, a) && Orderly(s, a) && HomeInv(Apply(s, a))
    requires d in Apply(s, a).deployed && d in s.home && e in Apply(s, a).entries && s.home[d].queue == e.queue
    ensures Older(Apply(s, a), d, e.id)
  {
    History(s, a);
    if e !in s.entries {
      EntryBefore(s, a, e);
      assert CreateOk(s, s.threads[a.t]);
    } else if d !in s.deployed {
      assert d in SentBy(s, a);
      SentIsOldest(s, a, d);
    }
  }

  /** Whatever has been sent, before or by this step, is known, and nothing younger in its queue went before. */
  lemma {:induction false} SentInOrder(s: State, a: Action)
    requires Inv(s) && Enabled(s, a) && Orderly(s, a)
    ensures forall d | d in s.deployed + SentBy(s, a) :: d in s.home
    ensures var all := s.deployed + SentBy(s, a);
      forall i, j | 0 <= i < j < |all| && s.home[all[i]].queue == s.home[all[j]].queue :: Older(s, all[i], all[j])
  {
    if SentBy(s, a) != [] {
      var id := SentBy(s, a)[0];
      assert SentBy(s, a) == [id];
      SentIsOldest(s, a, id);
    }
  }

  lemma {:induction false} StepDeployedOrdered(s: State, a: Action)
    requires Inv(s) && Enabled(s, a) && Orderly(s, a) && HomeInv(Apply(s, a)) && BirthInv(Apply(s, a))
    ensures DeployedOrdered(Apply(s, a))
  {
    var s' := Apply(s, a);
    History(s, a);
    SentInOrder(s, a);
    forall d, e | d in s'.deployed && e in s'.entries && s'.home[d].queue == e.queue ensures Older(s', d, e.id) {
      StepDeployedBeforeEntries(s, a, d, e);
    }
  }

  lemma {:induction false} StepInv(s: State, a: Action)
    requires Inv(s) && Enabled(s, a) && Orderly(s, a)
    ensures Inv(Apply(s, a))
  {
    var s' := Apply(s, a);
    PunctualUnlockIsOwn(s, a);
    NoLoss.KeysStayUnique(s, a);
    StepHomeInv(s, a);
    StepLeaseInv(s, a);
    StepInTimeHolds(s, a);
    StepBirthInv(s, a);
    StepEntriesOrdered(s, a);
    StepDeployedOrdered(s, a);
    StepThreadsOrdered(s, a);
  }

  lemma {:induction false} StepThreadsOrdered(s: State, a: Action)
    requires Inv(s) && Enabled(s, a) && Orderly(s, a) && BirthInv(Apply(s, a))
    ensures ThreadsOrdered(Apply(s, a))
  {
    var s' := Apply(s, a);
    forall t | t in s'.threads && s'.threads[t].Pulling? ensures !s'.threads[t].pc.Holding? {
      StepNoneHolding(s, a, t);
    }
    forall t | InTime(s', t) && s'.threads[t].Pulling? ensures AtHead(s', s'.threads[t]) { StepAtHead(s, a, t); }
    forall t | t in s'.threads && s'.threads[t].Creating? ensures CreateOk(s', s'.threads[t]) { StepCreateOk(s, a, t); }
    forall t, u, q | IsPending(s', t, q) && IsPending(s', u, q) ensures t == u { StepPendingUnique(s, a, t, u, q); }
  }

  /** Who unlocks in time removes only the lease it took. */
  lemma {:induction false} PunctualUnlockIsOwn(s: State, a: Action)
    requires LeaseInv(s) && InTimeHolds(s) && Enabled(s, a) && Punctual(s, a)
    ensures OwnUnlock(s, a)
  {
    if IsUnlock(s, a) { assert InTime(s, a.t) && Holds(s, a.t); }
  }

  // ---- the results ----

  ghost predicate OrderlyRun(ss: seq<State>, acts: seq<Action>)
    requires Behaviour(ss, acts)
  {
    forall i | 0 <= i < |acts| :: Orderly(ss[i], acts[i])
  }

  /** The persisted queues and the log of deployments are in creation order. */
  ghost predicate OrderedStart(s: State) {
    Init(s) && BirthInv(s) && HomeInv(s) && EntriesOrdered(s) && DeployedOrdered(s)
  }

  lemma {:induction false} OrderlyUnlocks(ss: seq<State>, acts: seq<Action>)
    requires Behaviour(ss, acts) && Init(ss[0]) && OrderlyRun(ss, acts)
    ensures OwnUnlocks(ss, acts)
  {
    forall i | 0 <= i < |acts| && IsUnlock(ss[i], acts[i]) ensures ss[i].now <= ss[i].threads[acts[i].t].lease.expires {
      assert Orderly(ss[i], acts[i]);
    }
    TimelyUnlocksAreOwn(ss, acts);
  }

  lemma {:induction false} Invariant(ss: seq<State>, acts: seq<Action>)
    requires Behaviour(ss, acts) && Inv(ss[0]) && OrderlyRun(ss, acts)
    ensures Inv(Last(ss))
    decreases |acts|
  {
    if acts != [] {
      Shorter(ss, acts);
      Invariant(ss[..|acts|], acts[..|acts| - 1]);
      StepInv(ss[|acts| - 1], acts[|acts| - 1]);
    }
  }

  /** Main result: in an orderly run no job overtakes an older job of its queue, and no job is sent twice. */
  lemma {:induction false} NoOvertaking(ss: seq<State>, acts: seq<Action>)
    requires Behaviour(ss, acts) && OrderedStart(ss[0]) && OrderlyRun(ss, acts)
    ensures var s := Last(ss);
      && (forall id | id in s.deployed :: id in s.home)
      && (forall i, j | 0 <= i < j < |s.deployed| && s.home[s.deployed[i]].queue == s.home[s.deployed[j]].queue ::
            s.home[s.deployed[i]].number <= s.home[s.deployed[j]].number && s.deployed[i] != s.deployed[j])
  {
    OrderlyUnlocks(ss, acts);
    Invariant(ss, acts);
    forall i | 0 <= i < |acts| && acts[i].Pull? && acts[i].pull.StorePending? ensures InTime(ss[i], acts[i].t) {
      assert Orderly(ss[i], acts[i]);
    }
    AtMostOnce.TimelyStoresAreFenced(ss, acts);
    AtMostOnce.FencedDeploysOnce(ss, acts);
  }

  /** The branch that puts a wrongly dequeued job back is unreachable in an orderly run. */
  lemma {:induction false} NeverDequeuesAnother(ss: seq<State>, acts: seq<Action>, t: ThreadId)
    requires Behaviour(ss, acts) && OrderedStart(ss[0]) && OrderlyRun(ss, acts)
    requires t in Last(ss).threads && Last(ss).threads[t].Pulling?
    ensures !Last(ss).threads[t].pc.Holding?
  {
    Invariant(ss, acts);
  }
}
