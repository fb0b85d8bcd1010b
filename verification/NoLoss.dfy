// No QUEUED job is lost, over every interleaving and however far leases overrun.
module NoLoss {
  import opened Entries
  import opened Protocol

  predicate Queued(s: State, id: TrainingId) {
    exists e | e in s.entries :: e.id == id
  }

  /** A trainer has dequeued the job's entry by mistake and is about to put it back. */
  ghost predicate InHand(s: State, id: TrainingId) {
    exists t | t in s.threads :: s.threads[t].Pulling? && s.threads[t].pc.Holding? && s.threads[t].pc.other == id
  }

  /** A DeleteTrainingJob call has taken the entry and has still to soft-delete the record. */
  ghost predicate BeingDeleted(s: State, id: TrainingId) {
    exists t | t in s.threads ::
      || (s.threads[t].Deleting? && s.threads[t].victim == id && s.threads[t].at == Done(true))
      || s.threads[t] == Erasing(id, true)
  }

  ghost predicate Accounted(s: State, id: TrainingId) {
    Queued(s, id) || InHand(s, id) || BeingDeleted(s, id) || id in s.stranded
  }

  ghost predicate KeysUnique(s: State) {
    && (forall e | e in s.entries :: e.key < s.nextKey)
    && (forall e, f | e in s.entries && f in s.entries && e.key == f.key :: e == f)
  }

  /** The job a thread has found finished with, or has itself stored as PENDING. */
  ghost predicate Settled(s: State, id: TrainingId) {
    id in s.docs && !LiveQueued(s.docs, id)
  }

  ghost predicate ThreadOk(s: State, th: Thread) {
    match th
    case Pulling(_, pc) => (
      match pc
      case Stale(id, missing) => missing || Settled(s, id)
      case Stored(id) => Settled(s, id)
      case Sent(id) => Settled(s, id)
      case Removing(id, _) => Settled(s, id)
      case Found(id, _) => id in s.docs
      case _ => true)
    case Creating(_, id, doc, step) =>
      && id in s.home
      && (step != ToDeploy ==> id !in s.docs && Resolves(doc))
      && (step == ToDeploy ==> Settled(s, id))
      && (step == ToStore ==> Accounted(s, id))
    case _ => true
  }

  ghost predicate CreatorsDistinct(s: State) {
    forall t, u | t in s.threads && u in s.threads && s.threads[t].Creating? && s.threads[u].Creating?
      && s.threads[t].newId == s.threads[u].newId :: t == u
  }

  ghost predicate Inv(s: State) {
    && KeysUnique(s)
    && CreatorsDistinct(s)
    && (forall id | id in s.docs :: id in s.home)
    && (forall t | t in s.threads :: ThreadOk(s, s.threads[t]))
    && (forall id | LiveQueued(s.docs, id) :: Accounted(s, id))
  }

  /** Once a stored record is not live and QUEUED it never is again. */
  lemma {:induction false} SettledStays(s: State, a: Action, id: TrainingId)
    requires Inv(s) && Enabled(s, a) && Settled(s, id)
    ensures Settled(Apply(s, a), id)
  {
  }

  lemma {:induction false} QueuedStays(s: State, a: Action, id: TrainingId)
    requires Inv(s) && Enabled(s, a) && Queued(s, id)
    ensures var s' := Apply(s, a); Accounted(s', id) || Settled(s', id)
  {
    var s' := Apply(s, a);
    var e :| e in s.entries && e.id == id;
    if e !in s'.entries { EntryTaken(s, a, e); } else { assert Queued(s', id); }
  }

  lemma {:induction false} InHandStays(s: State, a: Action, t: ThreadId)
    requires Inv(s) && Enabled(s, a) && t in s.threads && s.threads[t].Pulling? && s.threads[t].pc.Holding?
    ensures Accounted(Apply(s, a), s.threads[t].pc.other)
  {
    var s' := Apply(s, a);
    if !ActsFor(a, t) {
      OthersWait(s, a, t);
    } else if a.Pull? && a.pull.Reenqueue? {
      assert s'.entries[|s.entries|].id == s.threads[t].pc.other;
    }
  }

  lemma {:induction false} BeingDeletedStays(s: State, a: Action, t: ThreadId, id: TrainingId)
    requires Inv(s) && Enabled(s, a) && t in s.threads
    requires || (s.threads[t].Deleting? && s.threads[t].victim == id && s.threads[t].at == Done(true))
             || s.threads[t] == Erasing(id, true)
    ensures var s' := Apply(s, a); Accounted(s', id) || Settled(s', id)
  {
    var s' := Apply(s, a);
    if !ActsFor(a, t) {
      OthersWait(s, a, t);
      assert BeingDeleted(s', id);
    } else if a.Delete? && a.del.ReleaseLock? {
      assert s'.threads[t] == Erasing(id, true);
    }
  }

  /** An accounted job stays accounted until its record is settled. */
  lemma {:induction false} AccountedStays(s: State, a: Action, id: TrainingId)
    requires Inv(s) && Enabled(s, a) && Accounted(s, id)
    ensures var s' := Apply(s, a); Accounted(s', id) || Settled(s', id)
  {
    if Queued(s, id) {
      QueuedStays(s, a, id);
    } else if InHand(s, id) {
      var t :| t in s.threads && s.threads[t].Pulling? && s.threads[t].pc.Holding? && s.threads[t].pc.other == id;
      InHandStays(s, a, t);
    } else if BeingDeleted(s, id) {
      var t :| t in s.threads && ((s.threads[t].Deleting? && s.threads[t].victim == id && s.threads[t].at == Done(true))
                                  || s.threads[t] == Erasing(id, true));
      BeingDeletedStays(s, a, t, id);
    }
  }

  /** Whoever removes an entry holds it, deletes its job, records the loss, or knows its record is settled. */
  lemma {:induction false} EntryTaken(s: State, a: Action, e: Entry)
    requires Inv(s) && Enabled(s, a) && e in s.entries && e !in Apply(s, a).entries
    ensures var s' := Apply(s, a); Accounted(s', e.id) || Settled(s', e.id)
  {
    var s' := Apply(s, a);
    EntriesChange(s, a);
    if a.Pull? {
      assert ThreadOk(s, s.threads[a.t]);
      if a.pull.DequeueRemove? { assert e == s.threads[a.t].pc.entry; assert a.t in s'.threads; }
    } else {
      assert a.Delete? && s'.threads[a.t].at == Done(true);
    }
  }

  /** Only the last step of a queued create makes a record live and QUEUED. */
  lemma {:induction false} NewlyQueued(s: State, a: Action, id: TrainingId)
    requires Inv(s) && Enabled(s, a) && !LiveQueued(s.docs, id) && LiveQueued(Apply(s, a).docs, id)
    ensures Accounted(s, id) && id !in s.docs
  {
    assert a.Create? && a.create.StoreQueued?;
    assert ThreadOk(s, s.threads[a.t]);
  }

  lemma {:induction false} WaiterStaysOk(s: State, a: Action, t: ThreadId)
    requires Inv(s) && Enabled(s, a) && t in s.threads && !ActsFor(a, t)
    ensures ThreadOk(Apply(s, a), s.threads[t])
  {
    var th := s.threads[t];
    assert ThreadOk(s, th);
    match th
    case Pulling(_, pc) =>
      if (pc.Stale? && !pc.missing) || pc.Stored? || pc.Sent? || pc.Removing? { SettledStays(s, a, pc.id); }
    case Creating(_, id, _, step) =>
      if step == ToDeploy { SettledStays(s, a, id); } else { NotYetStored(s, a, t); }
      if step == ToStore { AccountedStays(s, a, id); }
    case _ =>
  }

  /** Nobody else writes the record a create has still to store. */
  lemma {:induction false} NotYetStored(s: State, a: Action, t: ThreadId)
    requires Inv(s) && Enabled(s, a) && t in s.threads && !ActsFor(a, t)
    requires s.threads[t].Creating? && s.threads[t].step != ToDeploy
    ensures s.threads[t].newId !in Apply(s, a).docs
  {
    assert ThreadOk(s, s.threads[t]);
    if a.Delete? || a.Pull? || a.Create? { assert ThreadOk(s, s.threads[a.t]); }
  }

  lemma {:induction false} PullerStaysOk(s: State, t: ThreadId, op: PullOp)
    requires Inv(s) && Enabled(s, Pull(t, op)) && t in Apply(s, Pull(t, op)).threads
    ensures ThreadOk(Apply(s, Pull(t, op)), Apply(s, Pull(t, op)).threads[t])
  {
  }

  lemma {:induction false} CreatorStaysOk(s: State, t: ThreadId, op: CreateOp)
    requires Inv(s) && Enabled(s, Create(t, op)) && t in Apply(s, Create(t, op)).threads
    ensures ThreadOk(Apply(s, Create(t, op)), Apply(s, Create(t, op)).threads[t])
  {
  }

  lemma {:induction false} ThreadStaysOk(s: State, a: Action, t: ThreadId)
    requires Inv(s) && Enabled(s, a) && t in Apply(s, a).threads
    ensures ThreadOk(Apply(s, a), Apply(s, a).threads[t])
  {
    if !ActsFor(a, t) {
      OthersWait(s, a, t);
      WaiterStaysOk(s, a, t);
    } else if a.Pull? {
      PullerStaysOk(s, t, a.pull);
    } else if a.Create? {
      CreatorStaysOk(s, t, a.create);
    }
  }

  /** Only CreateCheck starts a create, and no step changes whose create it is. */
  lemma {:induction false} CreatorBefore(s: State, a: Action, t: ThreadId)
    requires Enabled(s, a) && t in Apply(s, a).threads && Apply(s, a).threads[t].Creating?
    ensures var id := Apply(s, a).threads[t].newId;
            || (t in s.threads && s.threads[t].Creating? && s.threads[t].newId == id)
            || (a.CreateCheck? && a.t == t && a.id == id)
  {
    if !ActsFor(a, t) { OthersWait(s, a, t); }
  }

  lemma {:induction false} CreatorsStayDistinct(s: State, a: Action)
    requires Inv(s) && Enabled(s, a)
    ensures CreatorsDistinct(Apply(s, a))
  {
    var s' := Apply(s, a);
    forall t, u | t in s'.threads && u in s'.threads && s'.threads[t].Creating? && s'.threads[u].Creating?
                  && s'.threads[t].newId == s'.threads[u].newId
      ensures t == u
    {
      CreatorBefore(s, a, t);
      CreatorBefore(s, a, u);
      if t in s.threads { assert ThreadOk(s, s.threads[t]); }
      if u in s.threads { assert ThreadOk(s, s.threads[u]); }
    }
  }

  lemma {:induction false} KeysStayUnique(s: State, a: Action)
    requires KeysUnique(s) && Enabled(s, a)
    ensures KeysUnique(Apply(s, a))
  {
    EntriesChange(s, a);
  }

  lemma {:induction false} RecordsStayHome(s: State, a: Action)
    requires Inv(s) && Enabled(s, a)
    ensures forall id | id in Apply(s, a).docs :: id in Apply(s, a).home
  {
    if a.Create? { assert ThreadOk(s, s.threads[a.t]); }
  }

  lemma {:induction false} StepInv(s: State, a: Action)
    requires Inv(s) && Enabled(s, a)
    ensures Inv(Apply(s, a))
  {
    var s' := Apply(s, a);
    forall t | t in s'.threads ensures ThreadOk(s', s'.threads[t]) { ThreadStaysOk(s, a, t); }
    forall id | LiveQueued(s'.docs, id) ensures Accounted(s', id) {
      if !LiveQueued(s.docs, id) { NewlyQueued(s, a, id); }
      AccountedStays(s, a, id);
    }
    CreatorsStayDistinct(s, a);
    KeysStayUnique(s, a);
    RecordsStayHome(s, a);
  }

  lemma {:induction false} Invariant(ss: seq<State>, acts: seq<Action>)
    requires Behaviour(ss, acts) && Init(ss[0])
    ensures Inv(Last(ss))
    decreases |acts|
  {
    if acts != [] {
      Shorter(ss, acts);
      Invariant(ss[..|acts|], acts[..|acts| - 1]);
      StepInv(ss[|acts| - 1], acts[|acts| - 1]);
    }
  }

  /** Main result: in every reachable state an undeleted QUEUED record is in the queue, in the hand of a trainer about
      to put it back, in a delete that took its entry, or among the stranded ids. */
  lemma {:induction false} NoQueuedJobLost(ss: seq<State>, acts: seq<Action>, id: TrainingId)
    requires Behaviour(ss, acts) && Init(ss[0]) && LiveQueued(Last(ss).docs, id)
    ensures Queued(Last(ss), id) || InHand(Last(ss), id) || BeingDeleted(Last(ss), id) || id in Last(ss).stranded
  {
    Invariant(ss, acts);
  }

  // ---- the steps that strand a job ----

  /** The three ways for a job to lose its place in the queue: a pull that looked for its record in vain, because the
      create had still to store it, drops the entry; a wrongly dequeued job cannot be put back; a delete that took the
      entry fails to delete the record. */
  predicate Strands(s: State, a: Action, id: TrainingId)
    requires Enabled(s, a)
  {
    || (a.Pull? && a.pull.DropStale? && s.threads[a.t].pc == Stale(id, true))
    || (a.Pull? && a.pull.ReenqueueFails? && s.threads[a.t].pc.other == id)
    || (a.Delete? && a.del.EraseFails? && s.threads[a.t] == Erasing(id, true))
  }

  lemma {:induction false} StrandedBy(s: State, a: Action, id: TrainingId)
    requires Enabled(s, a)
    ensures id in Apply(s, a).stranded <==> id in s.stranded || Strands(s, a, id)
  {
    if a.Pull? { StrandedByPull(s, a.t, a.pull, id); }
    if a.Delete? { StrandedByDelete(s, a.t, a.del, id); }
  }

  lemma {:induction false} StrandedByPull(s: State, t: ThreadId, op: PullOp, id: TrainingId)
    requires Enabled(s, Pull(t, op))
    ensures id in ApplyPull(s, t, op).stranded <==> id in s.stranded || Strands(s, Pull(t, op), id)
  {
  }

  lemma {:induction false} StrandedByDelete(s: State, t: ThreadId, op: DeleteOp, id: TrainingId)
    requires Enabled(s, Delete(t, op))
    ensures id in ApplyDelete(s, t, op).stranded <==> id in s.stranded || Strands(s, Delete(t, op), id)
  {
  }

  /** Some step of the run strands the job. */
  ghost predicate StrandedDuring(ss: seq<State>, acts: seq<Action>, id: TrainingId)
    requires Behaviour(ss, acts)
  {
    exists i | 0 <= i < |acts| :: Strands(ss[i], acts[i], id)
  }

  lemma {:induction false} StrandedIffDuring(ss: seq<State>, acts: seq<Action>, id: TrainingId)
    requires Behaviour(ss, acts) && Init(ss[0])
    ensures id in Last(ss).stranded <==> StrandedDuring(ss, acts, id)
    decreases |acts|
  {
    if acts != [] {
      var n := |acts| - 1;
      Shorter(ss, acts);
      DuringGrows(ss, acts, id);
      StrandedIffDuring(ss[..|acts|], acts[..n], id);
      StrandedBy(ss[n], acts[n], id);
    }
  }

  lemma {:induction false} DuringGrows(ss: seq<State>, acts: seq<Action>, id: TrainingId)
    requires Behaviour(ss, acts) && acts != [] && Behaviour(ss[..|acts|], acts[..|acts| - 1])
    ensures var n := |acts| - 1;
      StrandedDuring(ss, acts, id) <==> StrandedDuring(ss[..|acts|], acts[..n], id) || Strands(ss[n], acts[n], id)
  {
    var n, ss', acts' := |acts| - 1, ss[..|acts|], acts[..|acts| - 1];
    if i :| 0 <= i < n && Strands(ss[i], acts[i], id) { assert Strands(ss'[i], acts'[i], id); }
    if i :| 0 <= i < n && Strands(ss'[i], acts'[i], id) { assert Strands(ss[i], acts[i], id); }
  }

  /** A QUEUED job that no step has stranded is queued, in hand or being deleted. */
  lemma {:induction false} NoQueuedJobStranded(ss: seq<State>, acts: seq<Action>, id: TrainingId)
    requires Behaviour(ss, acts) && Init(ss[0]) && LiveQueued(Last(ss).docs, id) && !StrandedDuring(ss, acts, id)
    ensures Queued(Last(ss), id) || InHand(Last(ss), id) || BeingDeleted(Last(ss), id)
  {
    NoQueuedJobLost(ss, acts, id);
    StrandedIffDuring(ss, acts, id);
  }
}
