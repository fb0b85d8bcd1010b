// Lease exclusion and fencing: what the lock collection guarantees to threads that finish within their lease,
// and what it does not when two goroutines of one trainer share an owner name.
module Leases {
  import opened Entries
  import opened Protocol

  predicate InSection(th: Thread) {
    th.Pulling? || th.Deleting?
  }

  /** The lease a thread took is still in the lock collection. */
  predicate Holds(s: State, t: ThreadId) {
    t in s.threads && InSection(s.threads[t]) && s.threads[t].lease in s.leases
  }

  /** The thread is between Lock and Unlock and its lease has not run out. */
  predicate InTime(s: State, t: ThreadId) {
    t in s.threads && InSection(s.threads[t]) && s.now <= s.threads[t].lease.expires
  }

  ghost predicate LeaseInv(s: State) {
    && OneLeasePerQueue(s.leases)
    && (forall l | l in s.leases :: l.key < s.nextLease)
    && (forall t | t in s.threads && InSection(s.threads[t]) :: s.threads[t].lease.key < s.nextLease)
    && (forall t, u | t in s.threads && u in s.threads && InSection(s.threads[t]) && InSection(s.threads[u])
          && s.threads[t].lease.key == s.threads[u].lease.key :: t == u)
  }

  /** Where a thread's lease comes from. */
  lemma {:induction false} LeaseBefore(s: State, a: Action, t: ThreadId)
    requires Enabled(s, a) && t in Apply(s, a).threads && InSection(Apply(s, a).threads[t])
    ensures var l := Apply(s, a).threads[t].lease;
            || (t in s.threads && InSection(s.threads[t]) && s.threads[t].lease == l)
            || ((a.PullLock? || a.DeleteLock?) && a.t == t && l.key == s.nextLease < Apply(s, a).nextLease
                && l.queue == a.q && l.owner == a.owner && Apply(s, a).leases == s.leases + {l})
  {
    if !ActsFor(a, t) { OthersWait(s, a, t); }
  }

  lemma {:induction false} StepLeaseInv(s: State, a: Action)
    requires LeaseInv(s) && Enabled(s, a)
    ensures LeaseInv(Apply(s, a))
  {
    var s' := Apply(s, a);
    LeasesChange(s, a);
    forall t | t in s'.threads && InSection(s'.threads[t]) ensures s'.threads[t].lease.key < s'.nextLease {
      LeaseBefore(s, a, t);
    }
    forall t, u | t in s'.threads && u in s'.threads && InSection(s'.threads[t]) && InSection(s'.threads[u])
                  && s'.threads[t].lease.key == s'.threads[u].lease.key
      ensures t == u
    {
      LeaseBefore(s, a, t);
      LeaseBefore(s, a, u);
    }
  }

  /** The ways the lock collection can change: a successful lock adds one document where none was. */
  lemma {:induction false} LeasesChange(s: State, a: Action)
    requires Enabled(s, a)
    ensures s.nextLease <= Apply(s, a).nextLease
    ensures || Apply(s, a).leases <= s.leases
            || ((a.PullLock? || a.DeleteLock?) && Free(s.leases, a.q) && s.nextLease < Apply(s, a).nextLease
                && exists l: Lease :: l.queue == a.q && l.key == s.nextLease && Apply(s, a).leases == s.leases + {l})
  {
    if a.PullLock? || a.DeleteLock? {
      var l := Lease(s.nextLease, a.q, a.owner, a.stamp + LOCK_EXPIRATION);
      assert Apply(s, a).leases == s.leases + {l};
    } else if a.Pull? || a.Delete? {
      assert Apply(s, a).leases <= s.leases;
    }
  }

  /** The action that ends thread `t`'s section and removes its trainer's lease. */
  predicate IsUnlock(s: State, a: Action) {
    || (a.Pull? && a.pull == Unlock(true) && a.t in s.threads && s.threads[a.t].Pulling?)
    || (a.Delete? && a.del == ReleaseLock(true) && a.t in s.threads && s.threads[a.t].Deleting?)
  }

  /** Fencing: until a lease expires only an Unlock of its own trainer removes it, so the late Unlock of a trainer
      that overran never removes another trainer's lease. */
  lemma {:induction false} Fencing(s: State, a: Action, l: Lease)
    requires Enabled(s, a) && l in s.leases && l !in Apply(s, a).leases
    ensures || (a.PurgeExpired? && l.expires < s.now)
            || (IsUnlock(s, a) && s.threads[a.t].lease.owner == l.owner && s.threads[a.t].lease.queue == l.queue)
  {
    LeasesChange(s, a);
    if a.Pull? || a.Delete? { assert IsUnlock(s, a); }
  }

  /** Two threads cannot both still have their lease of one queue in the lock collection. */
  lemma {:induction false} HoldersExclude(s: State, t: ThreadId, u: ThreadId)
    requires LeaseInv(s) && Holds(s, t) && Holds(s, u) && s.threads[t].lease.queue == s.threads[u].lease.queue
    ensures t == u
  {
  }

  // ---- runs in which an Unlock removes only the caller's own lease ----

  /** The Unlock finds no lease of a sibling goroutine, one that has the same trainer as owner. */
  ghost predicate OwnUnlock(s: State, a: Action) {
    IsUnlock(s, a) ==>
      forall l | l in s.leases && l.queue == s.threads[a.t].lease.queue && l.owner == s.threads[a.t].lease.owner ::
        l == s.threads[a.t].lease
  }

  ghost predicate InTimeHolds(s: State) {
    forall t | InTime(s, t) :: Holds(s, t)
  }

  lemma {:induction false} StepInTimeHolds(s: State, a: Action)
    requires LeaseInv(s) && InTimeHolds(s) && Enabled(s, a) && OwnUnlock(s, a)
    ensures InTimeHolds(Apply(s, a))
  {
    var s' := Apply(s, a);
    forall t | InTime(s', t) ensures Holds(s', t) {
      LeaseBefore(s, a, t);
      var l := s'.threads[t].lease;
      if t in s.threads && InSection(s.threads[t]) && s.threads[t].lease == l {
        assert s.now <= s'.now;
        assert InTime(s, t);
        if l !in s'.leases { Fencing(s, a, l); }
      }
    }
  }

  ghost predicate OwnUnlocks(ss: seq<State>, acts: seq<Action>)
    requires Behaviour(ss, acts)
  {
    forall i | 0 <= i < |acts| :: OwnUnlock(ss[i], acts[i])
  }

  lemma {:induction false} Exclusion(ss: seq<State>, acts: seq<Action>)
    requires Behaviour(ss, acts) && Init(ss[0]) && OwnUnlocks(ss, acts)
    ensures LeaseInv(Last(ss)) && InTimeHolds(Last(ss))
    decreases |acts|
  {
    if acts != [] {
      Shorter(ss, acts);
      Exclusion(ss[..|acts|], acts[..|acts| - 1]);
      StepLeaseInv(ss[|acts| - 1], acts[|acts| - 1]);
      StepInTimeHolds(ss[|acts| - 1], acts[|acts| - 1]);
    }
  }

  /** Main result: when no Unlock removes a sibling's lease, the lock collection holds at most one lease per queue and
      at most one thread of a queue is between Lock and Unlock within its lease. */
  lemma {:induction false} SectionsNeverOverlap(ss: seq<State>, acts: seq<Action>, t: ThreadId, u: ThreadId)
    requires Behaviour(ss, acts) && Init(ss[0]) && OwnUnlocks(ss, acts)
    requires InTime(Last(ss), t) && InTime(Last(ss), u)
    requires Last(ss).threads[t].lease.queue == Last(ss).threads[u].lease.queue
    ensures OneLeasePerQueue(Last(ss).leases)
    ensures t == u
  {
    Exclusion(ss, acts);
    HoldersExclude(Last(ss), t, u);
  }

  /** The lock collection holds at most one lease per queue in every run, overrun or not. */
  lemma {:induction false} LeaseInvariant(ss: seq<State>, acts: seq<Action>)
    requires Behaviour(ss, acts) && Init(ss[0])
    ensures LeaseInv(Last(ss))
    decreases |acts|
  {
    if acts != [] {
      Shorter(ss, acts);
      LeaseInvariant(ss[..|acts|], acts[..|acts| - 1]);
      StepLeaseInv(ss[|acts| - 1], acts[|acts| - 1]);
    }
  }

  // ---- two conditions a caller can check that give OwnUnlocks ----

  /** Every section, pulling or deleting, unlocks before its lease runs out. */
  ghost predicate UnlocksInTime(ss: seq<State>, acts: seq<Action>)
    requires Behaviour(ss, acts)
  {
    forall i | 0 <= i < |acts| && IsUnlock(ss[i], acts[i]) :: ss[i].now <= ss[i].threads[acts[i].t].lease.expires
  }

  lemma {:induction false} TimelyUnlocksAreOwn(ss: seq<State>, acts: seq<Action>)
    requires Behaviour(ss, acts) && Init(ss[0]) && UnlocksInTime(ss, acts)
    ensures OwnUnlocks(ss, acts)
    decreases |acts|
  {
    if acts != [] {
      var n := |acts| - 1;
      Shorter(ss, acts);
      var ss', acts' := ss[..|acts|], acts[..n];
      assert forall i | 0 <= i < n :: ss'[i] == ss[i] && acts'[i] == acts[i];
      TimelyUnlocksAreOwn(ss', acts');
      Exclusion(ss', acts');
      assert OwnUnlock(ss[n], acts[n]) by {
        if IsUnlock(ss[n], acts[n]) { assert InTime(ss[n], acts[n].t); }
      }
      forall i | 0 <= i < |acts| ensures OwnUnlock(ss[i], acts[i]) {
        if i < n { assert OwnUnlock(ss'[i], acts'[i]); }
      }
    }
  }

  /** No delete takes a queue lock, so each trainer has one goroutine per queue that locks. */
  ghost predicate OnlyPullersLock(acts: seq<Action>) {
    forall i | 0 <= i < |acts| :: !acts[i].DeleteLock?
  }

  ghost predicate OnePerOwner(s: State) {
    && (forall t | t in s.threads :: !s.threads[t].Deleting?)
    && (forall t, l | t in s.threads && s.threads[t].Pulling? && l in s.leases
          && l.queue == s.threads[t].lease.queue && l.owner == s.threads[t].lease.owner :: l == s.threads[t].lease)
  }

  lemma {:induction false} StepOnePerOwner(s: State, a: Action)
    requires OnePerOwner(s) && Enabled(s, a) && !a.DeleteLock?
    ensures OnePerOwner(Apply(s, a))
  {
    var s' := Apply(s, a);
    LeasesChange(s, a);
    forall t | t in s'.threads ensures !s'.threads[t].Deleting? {
      if InSection(s'.threads[t]) { LeaseBefore(s, a, t); }
      if !ActsFor(a, t) { OthersWait(s, a, t); }
    }
    forall t, l | t in s'.threads && s'.threads[t].Pulling? && l in s'.leases
                  && l.queue == s'.threads[t].lease.queue && l.owner == s'.threads[t].lease.owner
      ensures l == s'.threads[t].lease
    {
      LeaseBefore(s, a, t);
      if !ActsFor(a, t) { OthersWait(s, a, t); }
    }
  }

  lemma {:induction false} PullersUnlockTheirOwn(ss: seq<State>, acts: seq<Action>)
    requires Behaviour(ss, acts) && Init(ss[0]) && OnlyPullersLock(acts)
    ensures OwnUnlocks(ss, acts) && OnePerOwner(Last(ss))
    decreases |acts|
  {
    if acts != [] {
      var n := |acts| - 1;
      Shorter(ss, acts);
      var ss', acts' := ss[..|acts|], acts[..n];
      assert forall i | 0 <= i < n :: ss'[i] == ss[i] && acts'[i] == acts[i];
      PullersUnlockTheirOwn(ss', acts');
      StepOnePerOwner(ss[n], acts[n]);
      forall i | 0 <= i < |acts| ensures OwnUnlock(ss[i], acts[i]) {
        if i < n { assert OwnUnlock(ss'[i], acts'[i]); }
      }
    }
  }
}
