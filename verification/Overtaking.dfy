// When an interrupted create is overtaken: exactly if another create for its queue checks the size while it is pending.
module Overtaking {
  import opened Wrappers
  import opened Entries
  import opened JobStatus
  import opened Protocol
  import opened Leases
  import opened Fifo
  import opened Steering
  import NoLoss

  // ---- what the continuation needs to know of the state it starts from ----

  ghost predicate NewJobsQueued(s: State) {
    forall t | t in s.threads && s.threads[t].Creating? ::
      s.threads[t].newDoc.status == QUEUED && !s.threads[t].newDoc.deleted
  }

  ghost predicate LeasesEnd(s: State) {
    forall l | l in s.leases :: l.expires <= s.now + LOCK_EXPIRATION
  }

  ghost predicate Ready(s: State) {
    Fifo.Inv(s) && NewJobsQueued(s) && LeasesEnd(s)
  }

  lemma {:induction false} StepNewJobs(s: State, a: Action)
    requires NewJobsQueued(s) && Enabled(s, a)
    ensures NewJobsQueued(Apply(s, a))
  {
    var s' := Apply(s, a);
    forall t | t in s'.threads && s'.threads[t].Creating?
      ensures s'.threads[t].newDoc.status == QUEUED && !s'.threads[t].newDoc.deleted
    {
      if !ActsFor(a, t) { OthersWait(s, a, t); }
    }
  }

  lemma {:induction false} StepLeasesEnd(s: State, a: Action)
    requires LeasesEnd(s) && Enabled(s, a)
    ensures LeasesEnd(Apply(s, a))
  {
    EntriesChange(s, a);
    if a.Pull? { PullsAddNoLease(s, a.t, a.pull); }
  }

  lemma {:induction false} PullsAddNoLease(s: State, t: ThreadId, op: PullOp)
    requires Enabled(s, Pull(t, op))
    ensures ApplyPull(s, t, op).leases <= s.leases
  {
  }

  lemma {:induction false} ReadyInvariant(ss: seq<State>, acts: seq<Action>)
    requires Behaviour(ss, acts) && OrderedStart(ss[0]) && OrderlyRun(ss, acts)
    ensures Ready(Last(ss))
    decreases |acts|
  {
    if acts != [] {
      Shorter(ss, acts);
      ReadyInvariant(ss[..|acts|], acts[..|acts| - 1]);
      Fifo.StepInv(ss[|acts| - 1], acts[|acts| - 1]);
      StepNewJobs(ss[|acts| - 1], acts[|acts| - 1]);
      StepLeasesEnd(ss[|acts| - 1], acts[|acts| - 1]);
    }
  }

  // ---- somebody who can pull ----

  lemma {:induction false} FreshNumber(used: set<nat>) returns (n: nat)
    ensures n !in used
  {
    if used == {} { return 0; }
    n := Largest(used) + 1;
  }

  /** A bound of a set of numbers. */
  ghost function Largest(used: set<nat>): (n: nat)
    ensures forall k | k in used :: k <= n
  {
    if used == {} then 0
    else
      var k :| k in used;
      var m := Largest(used - {k});
      assert forall j | j in used :: j == k || j in used - {k};
      if m < k then k else m
  }

  lemma {:induction false} FreshPuller(s: State, q: QueueName) returns (t: ThreadId, owner: TrainerId)
    ensures t !in s.threads && NoPuller(s.threads, owner, q)
  {
    t := FreshNumber(s.threads.Keys);
    var n := FreshNumber(set u | u in s.threads && s.threads[u].Pulling? :: |s.threads[u].lease.owner|);
    owner := seq(n, i => 'x');
  }

  // ---- emptying a queue from the front ----

  /** The trainer can pull from the queue at any time. */
  ghost predicate CanPull(s: State, q: QueueName, t: ThreadId, owner: TrainerId) {
    t !in s.threads && NoPuller(s.threads, owner, q) && Free(s.leases, q) && NoLoss.KeysUnique(s)
  }

  /** A QUEUED job with one entry. */
  ghost predicate Waits(s: State, e: Entry) {
    e in s.entries && LiveQueued(s.docs, e.id) && forall f | f in s.entries && f.id == e.id :: f == e
  }

  /** A waiting job behind which `keep` waits in the same queue is sent, after others perhaps, and `keep` waits on. */
  lemma {:induction false} SendAhead(s0: State, s: State, t: ThreadId, owner: TrainerId, e: Entry, keep: Entry)
    returns (s': State)
    requires Reach(Orderly, s0, s) && CanPull(s, e.queue, t, owner) && Waits(s, e)
    requires Waits(s, keep) && keep.queue == e.queue && (keep == e || !Precedes(keep, e))
    ensures Reach(Orderly, s0, s') && CanPull(s', e.queue, t, owner) && s'.home == s.home
    ensures s.deployed <= s'.deployed && e.id in s'.deployed[|s.deployed|..]
    ensures keep != e ==> Waits(s', keep)
    decreases |s.entries|
  {
    var head := Earliest(s.entries, e.queue).value;
    s' := PullHead(s0, s, t, owner, head);
    assert NoLoss.KeysUnique(s');
    RemoveShrinks(s.entries, head.key);
    assert keep != e ==> head != keep;
    if head != e {
      StillWaits(s, s', head, e);
      StillWaits(s, s', head, keep);
      s' := SendAhead(s0, s', t, owner, e, keep);
    } else if keep != e {
      StillWaits(s, s', head, keep);
    }
  }

  lemma {:induction false} StillWaits(s: State, s': State, head: Entry, e: Entry)
    requires NoLoss.KeysUnique(s) && head in s.entries && Waits(s, e) && head != e
    requires s'.entries == RemoveEntry(s.entries, head.key)
    requires || s'.docs == s.docs
             || (head.id in s.docs && s'.docs == s.docs[head.id := s.docs[head.id].(status := PENDING)])
    ensures Waits(s', e)
  {
  }

  // ---- the two halves ----

  /** The jobs of one queue have been sent in creation order. */
  ghost predicate SentInOrder(s: State) {
    && (forall id | id in s.deployed :: id in s.home)
    && forall i, j | 0 <= i < j < |s.deployed| && s.home[s.deployed[i]].queue == s.home[s.deployed[j]].queue ::
         s.home[s.deployed[i]].number <= s.home[s.deployed[j]].number
  }

  /** Orderly steps keep the order. */
  lemma {:induction false} OrderlyKeepsOrder(s: State, s': State)
    requires Fifo.Inv(s) && Reach(Orderly, s, s')
    ensures SentInOrder(s')
  {
    var ss, acts :| RunOf(Orderly, s, s', ss, acts);
    forall i | 0 <= i < |acts| ensures Fifo.Orderly(ss[i], acts[i]) { assert Permits(Orderly, ss[i], acts[i]); }
    Fifo.Invariant(ss, acts);
  }

  /** `younger` and then `older` are sent, although they belong to one queue. */
  lemma {:induction false} OutOfOrder(s: State, younger: TrainingId, older: TrainingId, i: nat, j: nat)
    requires i < j < |s.deployed| && s.deployed[i] == younger && s.deployed[j] == older
    requires younger in s.home && older in s.home && s.home[younger].queue == s.home[older].queue
    requires s.home[older].number < s.home[younger].number
    ensures !SentInOrder(s)
  {
  }

  /** Nobody has the queue locked any longer. */
  lemma {:induction false} ClearLeases(s0: State, s: State, q: QueueName) returns (s': State)
    requires Reach(Orderly, s0, s) && LeasesEnd(s)
    ensures Reach(Orderly, s0, s') && Free(s'.leases, q) && s' == s.(now := s'.now, leases := s'.leases)
  {
    s' := Step(Orderly, s0, s, Tick(LOCK_EXPIRATION + 1));
    s' := Step(Orderly, s0, s', PurgeExpired(q));
  }

  /** An entry of the younger job waits before one of the older, and both are sent in that order. */
  lemma {:induction false} SendBoth(s0: State, s: State, e: Entry, f: Entry) returns (s': State)
    requires Reach(Orderly, s0, s) && LeasesEnd(s) && NoLoss.KeysUnique(s) && Waits(s, e) && Waits(s, f)
    requires e != f && e.queue == f.queue && !Precedes(f, e)
    requires e.id in s.home && f.id in s.home && s.home[e.id].queue == s.home[f.id].queue
    requires s.home[f.id].number < s.home[e.id].number
    ensures Reach(Orderly, s0, s') && !SentInOrder(s')
  {
    var t, owner := FreshPuller(s, e.queue);
    var s1 := ClearLeases(s0, s, e.queue);
    var s2 := SendAhead(s0, s1, t, owner, e, f);
    s' := SendAhead(s0, s2, t, owner, f, f);
    var n := |s1.deployed|;
    var i :| n <= i < |s2.deployed| && s2.deployed[i] == e.id;
    var j :| |s2.deployed| <= j < |s'.deployed| && s'.deployed[j] == f.id;
    assert s'.deployed[i] == s2.deployed[i];
    OutOfOrder(s', e.id, f.id, i, j);
  }

  /** The younger has been sent, and the older follows. */
  lemma {:induction false} SendOlder(s0: State, s: State, younger: TrainingId, f: Entry) returns (s': State)
    requires Reach(Orderly, s0, s) && LeasesEnd(s) && NoLoss.KeysUnique(s) && Waits(s, f)
    requires younger in s.deployed && younger in s.home && f.id in s.home
    requires s.home[younger].queue == s.home[f.id].queue && s.home[f.id].number < s.home[younger].number
    ensures Reach(Orderly, s0, s') && !SentInOrder(s')
  {
    var t, owner := FreshPuller(s, f.queue);
    var s1 := ClearLeases(s0, s, f.queue);
    s' := SendAhead(s0, s1, t, owner, f, f);
    var i :| 0 <= i < |s.deployed| && s.deployed[i] == younger;
    var j :| |s1.deployed| <= j < |s'.deployed| && s'.deployed[j] == f.id;
    assert s'.deployed[i] == s1.deployed[i];
    OutOfOrder(s', younger, f.id, i, j);
  }

  /** The state after a create has checked the size of a queue for which `u` is pending. */
  ghost predicate Checked(s: State, a: Action, u: ThreadId, s1: State)
  {
    && Ready(s) && Enabled(s, a) && a.CreateCheck? && a.sizeOk && IsPending(s, u, a.q) && s1 == Apply(s, a)
  }

  lemma {:induction false} OlderAndYounger(s: State, a: Action, u: ThreadId, s1: State)
    requires Checked(s, a, u, s1)
    ensures var x := s.threads[u].newId;
      && u != a.t && u in s1.threads && s1.threads[u] == s.threads[u] && a.t in s1.threads
      && s1.threads[a.t] == Creating(a.q, a.id, a.doc, if Jobs(s.entries, a.q) == [] then ToSubmit else ToEnqueue)
      && x in s1.home && a.id in s1.home && x != a.id && s1.home[x].queue == s1.home[a.id].queue == a.q
      && s1.home[x].number < s1.home[a.id].number
      && s1.entries == s.entries && s1.leases == s.leases && s1.now == s.now && s1.deployed == s.deployed
      && s1.nextKey == s.nextKey
  {
    assert CreateOk(s, s.threads[u]);
  }

  lemma {:induction false} NoJobs(entries: seq<Entry>, q: QueueName)
    requires forall e | e in entries :: e.queue != q
    ensures Jobs(entries, q) == []
  {
    if entries != [] {
      var front := entries[..|entries| - 1];
      assert entries == front + [entries[|entries| - 1]];
      NoJobs(front, q);
    }
  }

  /** The older create goes straight to LCM, and so does the younger: the queue was empty for both. */
  lemma {:induction false} BothDirect(s: State, a: Action, u: ThreadId, s1: State) returns (s': State)
    requires Checked(s, a, u, s1) && s.threads[u].step != ToEnqueue
    ensures Reach(Orderly, s1, s') && !SentInOrder(s')
  {
    OlderAndYounger(s, a, u, s1);
    assert CreateOk(s, s.threads[u]);
    NoJobs(s.entries, a.q);
    Start(Orderly, s1);
    var m := SendCreate(Orderly, s1, s1, a.t);
    s' := SendCreate(Orderly, s1, m, u);
    var n := |s.deployed|;
    OutOfOrder(s', a.id, s.threads[u].newId, n, n + 1);
  }

  /** The older create still has to enqueue, and the younger goes straight to LCM. */
  lemma {:induction false} YoungerDirect(s: State, a: Action, u: ThreadId, s1: State) returns (s': State)
    requires Checked(s, a, u, s1) && s.threads[u].step == ToEnqueue && Jobs(s.entries, a.q) == []
    ensures Reach(Orderly, s1, s') && !SentInOrder(s')
  {
    OlderAndYounger(s, a, u, s1);
    assert CreateOk(s, s.threads[u]);
    Start(Orderly, s1);
    var m := SendCreate(Orderly, s1, s1, a.t);
    m := QueueCreate(Orderly, s1, m, u);
    var f := Entry(s.nextKey, a.q, s.threads[u].newId, s.now);
    assert m.entries == s.entries + [f];
    s' := SendOlder(s1, m, a.id, f);
  }

  /** Two creates on their way to the queue get there, `t` before `u`. */
  lemma {:induction false} EnqueueBoth(s: State, t: ThreadId, u: ThreadId) returns (s': State, e: Entry, f: Entry)
    requires NoLoss.KeysUnique(s) && t != u && t in s.threads && u in s.threads
    requires s.threads[t].Creating? && s.threads[t].step == ToEnqueue
    requires s.threads[u].Creating? && s.threads[u].step == ToEnqueue
    ensures Reach(Orderly, s, s') && NoLoss.KeysUnique(s')
    ensures e == Entry(s.nextKey, s.threads[t].queue, s.threads[t].newId, s.now)
    ensures f == Entry(s.nextKey + 1, s.threads[u].queue, s.threads[u].newId, s.now)
    ensures s'.entries == s.entries + [e, f] && s'.home == s.home && s'.leases == s.leases && s'.now == s.now
    ensures s'.docs == s.docs[e.id := s.threads[t].newDoc][f.id := s.threads[u].newDoc]
  {
    Start(Orderly, s);
    s' := QueueCreate(Orderly, s, s, t);
    s' := QueueCreate(Orderly, s, s', u);
    e, f := Entry(s.nextKey, s.threads[t].queue, s.threads[t].newId, s.now),
            Entry(s.nextKey + 1, s.threads[u].queue, s.threads[u].newId, s.now);
    assert s'.entries == s.entries + [e] + [f] == s.entries + [e, f];
  }

  /** No entry of a job that a create has still to enqueue, nor of one that is not handed out. */
  ghost predicate NoEntryOf(s: State, id: TrainingId) {
    forall e | e in s.entries :: e.id != id
  }

  lemma {:induction false} NewHasNoEntry(s: State, a: Action, u: ThreadId, s1: State)
    requires Checked(s, a, u, s1)
    ensures NoEntryOf(s1, a.id)
    ensures s.threads[u].step == ToEnqueue ==> NoEntryOf(s1, s.threads[u].newId)
    ensures NoLoss.KeysUnique(s1)
    ensures a.doc.status == QUEUED && !a.doc.deleted
    ensures s.threads[u].newDoc.status == QUEUED && !s.threads[u].newDoc.deleted
  {
    assert CreateOk(s, s.threads[u]);
  }

  /** Both have to enqueue, and the younger does so first. */
  lemma {:induction false} YoungerEnqueues(s: State, a: Action, u: ThreadId, s1: State) returns (s': State)
    requires Checked(s, a, u, s1) && s.threads[u].step == ToEnqueue && Jobs(s.entries, a.q) != []
    ensures Reach(Orderly, s1, s') && !SentInOrder(s')
  {
    OlderAndYounger(s, a, u, s1);
    NewHasNoEntry(s, a, u, s1);
    var m, e, f := EnqueueBoth(s1, a.t, u);
    BothWait(s1, m, e, f);
    s' := SendBoth(s1, m, e, f);
  }

  lemma {:induction false} BothWait(s: State, m: State, e: Entry, f: Entry)
    requires m.entries == s.entries + [e, f] && NoEntryOf(s, e.id) && NoEntryOf(s, f.id) && e.id != f.id
    requires LiveQueued(m.docs, e.id) && LiveQueued(m.docs, f.id)
    ensures Waits(m, e) && Waits(m, f)
  {
  }

  /** A create that checks the size while an older one is pending can overtake it. */
  lemma {:induction false} PendingIsOvertaken(s: State, a: Action, u: ThreadId) returns (s': State)
    requires Ready(s) && Enabled(s, a) && a.CreateCheck? && a.sizeOk && IsPending(s, u, a.q)
    ensures Reach(Orderly, Apply(s, a), s') && !SentInOrder(s')
  {
    var s1 := Apply(s, a);
    if s.threads[u].step != ToEnqueue {
      s' := BothDirect(s, a, u, s1);
    } else if Jobs(s.entries, a.q) == [] {
      s' := YoungerDirect(s, a, u, s1);
    } else {
      s' := YoungerEnqueues(s, a, u, s1);
    }
  }

  /** Main result: after an orderly run, a create that checks the size of its queue leaves all orderly continuations
      with the jobs of each queue sent in creation order if and only if no other create for that queue is pending. */
  lemma {:induction false} CreateKeepsOrderIff(ss: seq<State>, acts: seq<Action>, a: Action)
    requires Behaviour(ss, acts) && OrderedStart(ss[0]) && OrderlyRun(ss, acts)
    requires Enabled(Last(ss), a) && a.CreateCheck? && a.sizeOk
    ensures (forall s' | Reach(Orderly, Apply(Last(ss), a), s') :: SentInOrder(s'))
      <==> forall u :: !IsPending(Last(ss), u, a.q)
  {
    var s := Last(ss);
    ReadyInvariant(ss, acts);
    if u :| IsPending(s, u, a.q) {
      var s' := PendingIsOvertaken(s, a, u);
    } else {
      Fifo.StepInv(s, a);
      forall s' | Reach(Orderly, Apply(s, a), s') ensures SentInOrder(s') { OrderlyKeepsOrder(Apply(s, a), s'); }
    }
  }
}
