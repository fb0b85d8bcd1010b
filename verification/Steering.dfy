// Runs of the protocol put together step by step, with what their actions are held to.
module Steering {
  import opened Wrappers
  import opened Entries
  import opened JobStatus
  import opened Protocol
  import opened Leases
  import Fifo

  /** What the actions of a run are held to. */
  datatype Discipline = Unrestricted | TimelyStores | OnlyPullers | Punctual | Orderly

  ghost predicate Permits(d: Discipline, s: State, a: Action) {
    match d
    case Unrestricted => true
    case TimelyStores => a.Pull? && a.pull.StorePending? ==> InTime(s, a.t)
    case OnlyPullers => !a.DeleteLock?
    case Punctual => Fifo.Punctual(s, a)
    case Orderly => Fifo.Orderly(s, a)
  }

  /** The discipline lets sections act only within their lease. */
  predicate KeepsTime(d: Discipline) {
    d == Punctual || d == Orderly
  }

  ghost predicate RunOf(d: Discipline, s0: State, s: State, ss: seq<State>, acts: seq<Action>) {
    && Behaviour(ss, acts) && ss[0] == s0 && Last(ss) == s
    && forall i | 0 <= i < |acts| :: Permits(d, ss[i], acts[i])
  }

  ghost predicate Reach(d: Discipline, s0: State, s: State) {
    exists ss, acts :: RunOf(d, s0, s, ss, acts)
  }

  lemma {:induction false} Start(d: Discipline, s: State)
    ensures Reach(d, s, s)
  {
    assert RunOf(d, s, s, [s], []);
  }

  lemma {:induction false} Step(d: Discipline, s0: State, s: State, a: Action) returns (s': State)
    requires Reach(d, s0, s) && Enabled(s, a) && Permits(d, s, a)
    ensures s' == Apply(s, a) && Reach(d, s0, s')
  {
    s' := Apply(s, a);
    var ss, acts :| RunOf(d, s0, s, ss, acts);
    assert RunOf(d, s0, s', ss + [s'], acts + [a]);
  }

  /** Time passes until every lease of the queue has run out and a competitor has purged it. */
  lemma {:induction false} LeasesRunOut(d: Discipline, s0: State, s: State, q: QueueName) returns (s': State)
    requires Reach(d, s0, s)
    requires forall l | l in s.leases :: l.queue == q && l.expires <= s.now + LOCK_EXPIRATION
    ensures Reach(d, s0, s') && s' == s.(now := s.now + 61, leases := {})
  {
    s' := Step(d, s0, s, Tick(61));
    s' := Step(d, s0, s', PurgeExpired(q));
    assert s'.leases == {};
  }

  /** Where Find leads for a peeked job. */
  function Looked(s: State, id: TrainingId): PullPc {
    if LiveQueued(s.docs, id) then Found(id, s.docs[id]) else Stale(id, id !in s.docs)
  }

  /** A trainer that has the queue locked peeks and looks up the first job. */
  lemma {:induction false} PeekFind(d: Discipline, s0: State, s: State, t: ThreadId, e: Entry) returns (s': State)
    requires Reach(d, s0, s) && Earliest(s.entries, e.queue) == Some(e)
    requires t in s.threads && s.threads[t].Pulling? && s.threads[t].lease.queue == e.queue && s.threads[t].pc == Locked
    requires KeepsTime(d) ==> InTime(s, t)
    ensures Reach(d, s0, s') && s' == Goto(s, t, Looked(s, e.id))
  {
    s' := Step(d, s0, s, Pull(t, Peek));
    assert s' == Goto(s, t, Peeked(e.id));
    s' := Step(d, s0, s', Pull(t, Find));
  }

  lemma {:induction false} LockPeekFind(d: Discipline, s0: State, s: State, t: ThreadId, owner: TrainerId, e: Entry)
    returns (s': State)
    requires Reach(d, s0, s) && Earliest(s.entries, e.queue) == Some(e)
    requires t !in s.threads && NoPuller(s.threads, owner, e.queue) && Free(s.leases, e.queue)
    ensures var l := Lease(s.nextLease, e.queue, owner, s.now + LOCK_EXPIRATION);
      && Reach(d, s0, s')
      && s' == s.(leases := s.leases + {l}, nextLease := s.nextLease + 1,
                  threads := s.threads[t := Pulling(l, Looked(s, e.id))])
  {
    s' := LockForPull(d, s0, s, t, owner, e.queue);
    s' := PeekFind(d, s0, s', t, e);
  }

  lemma {:induction false} LockForPull(d: Discipline, s0: State, s: State, t: ThreadId, owner: TrainerId, q: QueueName)
    returns (s': State)
    requires Reach(d, s0, s) && t !in s.threads && NoPuller(s.threads, owner, q) && Free(s.leases, q)
    ensures var l := Lease(s.nextLease, q, owner, s.now + LOCK_EXPIRATION);
      && Reach(d, s0, s')
      && s' == s.(leases := s.leases + {l}, nextLease := s.nextLease + 1, threads := s.threads[t := Pulling(l, Locked)])
  {
    s' := Step(d, s0, s, PullLock(t, owner, q, s.now));
  }

  lemma {:induction false} OnlyEntry(e: Entry)
    ensures Earliest([e], e.queue) == Some(e) && RemoveEntry([e], e.key) == [] && e in [e]
  {
    assert [e][..0] == [] && [e][0] in [e];
  }

  /** A delete locks the queue and takes an entry of its job. */
  lemma {:induction false} LockTake(d: Discipline, s0: State, s: State, t: ThreadId, owner: TrainerId, e: Entry)
    returns (s': State)
    requires Reach(d, s0, s) && d == Unrestricted
    requires e in s.entries && e.id in s.docs && t !in s.threads && Free(s.leases, e.queue)
    ensures var l := Lease(s.nextLease, e.queue, owner, s.now + LOCK_EXPIRATION);
      && Reach(d, s0, s')
      && s' == s.(leases := s.leases + {l}, nextLease := s.nextLease + 1, entries := RemoveEntry(s.entries, e.key),
                  threads := s.threads[t := Deleting(l, e.id, Done(true))])
  {
    s' := Step(d, s0, s, DeleteLock(t, owner, e.queue, e.id, s.now));
    s' := Step(d, s0, s', Delete(t, Take(e.key)));
  }

  /** It unlocks, and the deletion of the record fails or succeeds. */
  lemma {:induction false} ReleaseErase(d: Discipline, s0: State, s: State, t: ThreadId, ok: bool) returns (s': State)
    requires Reach(d, s0, s) && d == Unrestricted && t in s.threads && s.threads[t].Deleting?
    requires s.threads[t].at == Done(true)
    requires s.threads[t].victim in s.docs
    ensures Reach(d, s0, s')
    ensures var l, id := s.threads[t].lease, s.threads[t].victim;
      s' == s.(leases := Release(s.leases, l.queue, l.owner), threads := s.threads - {t},
               docs := if ok then s.docs[id := Doc(PENDING, true, "", [])] else s.docs,
               stranded := s.stranded + if ok then {} else {id})
  {
    s' := Step(d, s0, s, Delete(t, ReleaseLock(true)));
    s' := Step(d, s0, s', Delete(t, if ok then Erase(PENDING) else EraseFails));
    assert s'.threads == s.threads - {t};
    assert s.stranded + {} == s.stranded;
  }

  /** A trainer dequeues another job than the one it sent. */
  lemma {:induction false} DequeueOther(d: Discipline, s0: State, s: State, t: ThreadId, e: Entry) returns (s': State)
    requires Reach(d, s0, s) && d == Unrestricted && Earliest(s.entries, e.queue) == Some(e)
    requires t in s.threads && s.threads[t].Pulling? && s.threads[t].lease.queue == e.queue
    requires s.threads[t].pc.Sent? && s.threads[t].pc.id != e.id
    ensures Reach(d, s0, s')
    ensures s' == Goto(s.(entries := RemoveEntry(s.entries, e.key)), t, Holding(s.threads[t].pc.id, e.id))
  {
    s' := Step(d, s0, s, Pull(t, DequeueFind));
    assert s' == Goto(s, t, Removing(s.threads[t].pc.id, e));
    s' := Step(d, s0, s', Pull(t, DequeueRemove));
  }

  /** It cannot put the job back, and unlocks. */
  lemma {:induction false} LoseHeld(d: Discipline, s0: State, s: State, t: ThreadId) returns (s': State)
    requires Reach(d, s0, s) && d == Unrestricted && t in s.threads && s.threads[t].Pulling? && s.threads[t].pc.Holding?
    ensures Reach(d, s0, s')
    ensures var th := s.threads[t];
      s' == s.(stranded := s.stranded + {th.pc.other}, threads := s.threads - {t},
               leases := Release(s.leases, th.lease.queue, th.lease.owner))
  {
    s' := Step(d, s0, s, Pull(t, ReenqueueFails));
    s' := Step(d, s0, s', Pull(t, Unlock(true)));
    assert s'.threads == s.threads - {t};
  }

  /** A trainer sends a job it has found, up to the dequeue. */
  lemma {:induction false} StoreSend(d: Discipline, s0: State, s: State, t: ThreadId) returns (s': State)
    requires Reach(d, s0, s) && t in s.threads && s.threads[t].Pulling? && s.threads[t].pc.Found?
    requires s.threads[t].pc.id in s.docs && (d == TimelyStores || KeepsTime(d) ==> InTime(s, t))
    ensures Reach(d, s0, s')
    ensures var pc := s.threads[t].pc;
      s' == Goto(s.(docs := s.docs[pc.id := pc.doc.(status := PENDING)], submitted := s.submitted + {pc.id},
                    deployed := s.deployed + [pc.id]), t, Sent(pc.id))
  {
    var pc := s.threads[t].pc;
    s' := Step(d, s0, s, Pull(t, StorePending));
    s' := Step(d, s0, s', Pull(t, Deploy(true)));
  }

  /** A trainer that found an entry's job gone or not QUEUED removes the entry and unlocks. */
  lemma {:induction false} DropUnlock(d: Discipline, s0: State, s: State, t: ThreadId, e: Entry) returns (s': State)
    requires Reach(d, s0, s) && e in s.entries && t in s.threads && s.threads[t].Pulling?
    requires s.threads[t].pc.Stale? && s.threads[t].pc.id == e.id && s.threads[t].lease.queue == e.queue && InTime(s, t)
    ensures Reach(d, s0, s')
    ensures var l := s.threads[t].lease;
      s' == s.(entries := RemoveEntry(s.entries, e.key), leases := Release(s.leases, l.queue, l.owner),
               threads := s.threads - {t},
               stranded := s.stranded + if s.threads[t].pc.missing then {e.id} else {})
  {
    s' := Step(d, s0, s, Pull(t, DropStale(e.key)));
    s' := LeaveSection(d, s0, s', t);
    assert s'.threads == s.threads - {t};
  }

  /** A create on its way to LCM arrives there. */
  lemma {:induction false} SendCreate(d: Discipline, s0: State, s: State, t: ThreadId) returns (s': State)
    requires Reach(d, s0, s) && t in s.threads && s.threads[t].Creating?
    requires s.threads[t].step == ToSubmit || s.threads[t].step == ToDeploy
    ensures Reach(d, s0, s')
    ensures var th := s.threads[t];
      s' == s.(threads := s.threads - {t}, deployed := s.deployed + [th.newId],
               docs := if th.step == ToSubmit then s.docs[th.newId := th.newDoc.(status := PENDING)] else s.docs,
               submitted := if th.step == ToSubmit then s.submitted + {th.newId} else s.submitted)
  {
    s' := s;
    if s.threads[t].step == ToSubmit { s' := Step(d, s0, s, Create(t, SubmitPending)); }
    assert s'.threads - {t} == s.threads - {t};
    s' := Step(d, s0, s', Create(t, SubmitDeploy));
  }

  /** A create on its way to the queue gets its entry and its record in. */
  lemma {:induction false} QueueCreate(d: Discipline, s0: State, s: State, t: ThreadId) returns (s': State)
    requires Reach(d, s0, s) && t in s.threads && s.threads[t].Creating? && s.threads[t].step == ToEnqueue
    ensures Reach(d, s0, s')
    ensures var th := s.threads[t];
      s' == s.(threads := s.threads - {t}, docs := s.docs[th.newId := th.newDoc], nextKey := s.nextKey + 1,
               entries := s.entries + [Entry(s.nextKey, th.queue, th.newId, s.now)])
  {
    s' := Step(d, s0, s, Create(t, Enqueue(s.now)));
    assert s'.threads - {t} == s.threads - {t};
    s' := Step(d, s0, s', Create(t, StoreQueued));
  }

  /** A trainer dequeues the job it sent and unlocks. */
  lemma {:induction false} DequeueUnlock(d: Discipline, s0: State, s: State, t: ThreadId, e: Entry) returns (s': State)
    requires Reach(d, s0, s) && Earliest(s.entries, e.queue) == Some(e)
    requires t in s.threads && s.threads[t].Pulling? && s.threads[t].lease.queue == e.queue && InTime(s, t)
    requires s.threads[t].pc == Sent(e.id)
    ensures Reach(d, s0, s')
    ensures var l := s.threads[t].lease;
      s' == s.(entries := RemoveEntry(s.entries, e.key), leases := Release(s.leases, l.queue, l.owner),
               threads := s.threads - {t})
  {
    s' := DequeueOwn(d, s0, s, t, e);
    s' := LeaveSection(d, s0, s', t);
    assert s'.threads == s.threads - {t};
  }

  lemma {:induction false} DequeueOwn(d: Discipline, s0: State, s: State, t: ThreadId, e: Entry) returns (s': State)
    requires Reach(d, s0, s) && Earliest(s.entries, e.queue) == Some(e)
    requires t in s.threads && s.threads[t].Pulling? && s.threads[t].lease.queue == e.queue && InTime(s, t)
    requires s.threads[t].pc == Sent(e.id)
    ensures Reach(d, s0, s') && s' == Goto(s.(entries := RemoveEntry(s.entries, e.key)), t, Leaving)
  {
    s' := Step(d, s0, s, Pull(t, DequeueFind));
    assert s' == Goto(s, t, Removing(e.id, e));
    s' := Step(d, s0, s', Pull(t, DequeueRemove));
  }

  lemma {:induction false} LeaveSection(d: Discipline, s0: State, s: State, t: ThreadId) returns (s': State)
    requires Reach(d, s0, s) && t in s.threads && s.threads[t].Pulling? && s.threads[t].pc.Leaving? && InTime(s, t)
    ensures Reach(d, s0, s')
    ensures var l := s.threads[t].lease;
      s' == s.(leases := Release(s.leases, l.queue, l.owner), threads := s.threads - {t})
  {
    s' := Step(d, s0, s, Pull(t, Unlock(true)));
  }

  /** What a round of pulling makes of the job at the head of a queue nobody has locked: it is sent if it is QUEUED, and
      in any case its entry goes. */
  lemma {:induction false} PullHead(s0: State, s: State, t: ThreadId, owner: TrainerId, e: Entry) returns (s': State)
    requires Reach(Orderly, s0, s) && Earliest(s.entries, e.queue) == Some(e)
    requires t !in s.threads && NoPuller(s.threads, owner, e.queue) && Free(s.leases, e.queue)
    ensures Reach(Orderly, s0, s') && s'.entries == RemoveEntry(s.entries, e.key)
    ensures s'.threads == s.threads && s'.leases == s.leases && s'.home == s.home
    ensures s'.deployed == if LiveQueued(s.docs, e.id) then s.deployed + [e.id] else s.deployed
    ensures s'.docs == if LiveQueued(s.docs, e.id) then s.docs[e.id := s.docs[e.id].(status := PENDING)] else s.docs
    ensures s'.nextKey == s.nextKey
  {
    s' := LockPeekFind(Orderly, s0, s, t, owner, e);
    if LiveQueued(s.docs, e.id) {
      s' := StoreSend(Orderly, s0, s', t);
      s' := DequeueUnlock(Orderly, s0, s', t, e);
    } else {
      s' := DropUnlock(Orderly, s0, s', t, e);
    }
    assert s'.threads == s.threads;
    assert s'.leases == s.leases;
  }
}
