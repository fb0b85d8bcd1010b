// The job-queue protocol as a state machine. One action is one database operation, one clock tick or
// one call to LCM; any number of trainers interleave. A crashed trainer simply takes no further step.
module Protocol {
  import opened Wrappers
  import opened Entries
  import opened JobStatus

  type ThreadId = nat

  /** The part of a training record the protocol reads: `input` is InputData[0], `stores` the datastore ids. */
  datatype Doc = Doc(status: Status, deleted: bool, input: string, stores: seq<string>)

  predicate Resolves(d: Doc) {
    d.input in d.stores
  }

  /** The finders see the record and its status is QUEUED. */
  predicate LiveQueued(docs: map<TrainingId, Doc>, id: TrainingId) {
    id in docs && !docs[id].deleted && docs[id].status == QUEUED
  }

  // Where a goroutine inside pullJobFromQueue stands, between Lock and Unlock.
  datatype PullPc =
    | Locked
    | Peeked(id: TrainingId)
    | Stale(id: TrainingId, missing: bool)    // no QUEUED record found; about to delete the entry
    | Found(id: TrainingId, doc: Doc)         // the record as read, allowed by the rate limiter
    | Stored(id: TrainingId)                  // PENDING stored; about to deploy
    | Sent(id: TrainingId)                    // deployed; about to dequeue
    | Removing(id: TrainingId, entry: Entry)  // Dequeue has found the oldest entry; about to remove it
    | Holding(id: TrainingId, other: TrainingId) // dequeued another job's entry; about to put it back
    | Leaving                                 // about to unlock

  datatype DeletePc = AboutToTake | Done(took: bool)

  datatype CreatePc = ToEnqueue | ToStore | ToSubmit | ToDeploy

  datatype Thread =
    | Pulling(lease: Lease, pc: PullPc)
    | Deleting(lease: Lease, victim: TrainingId, at: DeletePc)       // inside deleteJobFromQueue
    | Erasing(victim: TrainingId, tookEntry: bool)                   // DeleteTrainingJob after deleteJobFromQueue
    | Creating(queue: QueueName, newId: TrainingId, newDoc: Doc, step: CreatePc)

  /** The queue a job's creator chose, and the number of the create. */
  datatype Birth = Birth(queue: QueueName, number: nat)

  datatype State = State(
    limit: nat,                          // queue.size.limit, 0 for none
    now: nat,
    nextKey: nat,                        // for queue entries
    nextLease: nat,                      // for leases
    births: nat,                         // for creates
    entries: seq<Entry>,
    leases: set<Lease>,
    docs: map<TrainingId, Doc>,
    threads: map<ThreadId, Thread>,
    // history: what has happened so far
    home: map<TrainingId, Birth>,        // every id handed out
    submitted: set<TrainingId>,          // ids submitJobToLCM has stored as PENDING
    deployed: seq<TrainingId>,           // the DeployTrainingJob calls
    stranded: set<TrainingId>)           // ids whose queue entry is gone for one of the three reasons below

  datatype PullOp =
    | Peek | Find | DropStale(key: nat) | StorePending | Deploy(ok: bool)
    | DequeueFind | DequeueRemove | Reenqueue(stamp: nat) | ReenqueueFails
    | GiveUp | Unlock(ok: bool)

  datatype DeleteOp = Take(key: nat) | Skip | ReleaseLock(ok: bool) | Erase(status: Status) | EraseFails

  datatype CreateOp =
    | Enqueue(stamp: nat) | EnqueueFails(stored: bool) | StoreQueued | StoreFails
    | SubmitPending | SubmitDeploy | Abandon

  datatype Action =
    | Tick(d: nat)
    | PurgeExpired(q: QueueName)
    | PullLock(t: ThreadId, owner: TrainerId, q: QueueName, stamp: nat)
    | Pull(t: ThreadId, pull: PullOp)
    | DeleteLock(t: ThreadId, owner: TrainerId, q: QueueName, id: TrainingId, stamp: nat)
    | Delete(t: ThreadId, del: DeleteOp)
    | CreateCheck(t: ThreadId, q: QueueName, id: TrainingId, doc: Doc, sizeOk: bool)
    | Create(t: ThreadId, create: CreateOp)
    | Update(id: TrainingId, doc: Doc)        // updateTrainingJobPostLock storing a record it read earlier
    | SoftDelete(id: TrainingId, status: Status) // DeleteTrainingJob of a job not seen QUEUED, or not locked

  // ---- when an action can happen ----

  predicate PullEnabled(s: State, th: Thread, op: PullOp)
    requires th.Pulling?
  {
    match op
    case Peek => th.pc.Locked? && Earliest(s.entries, th.lease.queue).Some?
    case Find => th.pc.Peeked?
    case DropStale(key) =>
      th.pc.Stale? && exists e | e in s.entries :: e.key == key && e.queue == th.lease.queue && e.id == th.pc.id
    case StorePending => th.pc.Found? && th.pc.id in s.docs
    case Deploy(_) => th.pc.Stored?
    case DequeueFind => th.pc.Sent? && Earliest(s.entries, th.lease.queue).Some?
    case DequeueRemove => th.pc.Removing? && th.pc.entry in s.entries
    case Reenqueue(_) => th.pc.Holding?
    case ReenqueueFails => th.pc.Holding?
    case GiveUp => !th.pc.Holding? && !th.pc.Leaving?
    case Unlock(_) => th.pc.Leaving?
  }

  predicate DeleteEnabled(s: State, th: Thread, op: DeleteOp) {
    match op
    case Take(key) =>
      th.Deleting? && th.at.AboutToTake?
      && exists e | e in s.entries :: e.key == key && e.queue == th.lease.queue && e.id == th.victim
    case Skip => th.Deleting? && th.at.AboutToTake?
    case ReleaseLock(_) => th.Deleting? && th.at.Done?
    case Erase(_) => th.Erasing? && th.victim in s.docs
    case EraseFails => th.Erasing?
  }

  predicate CreateEnabled(s: State, th: Thread, op: CreateOp)
    requires th.Creating?
  {
    match op
    case Enqueue(_) => th.step.ToEnqueue?
    case EnqueueFails(_) => th.step.ToEnqueue?
    case StoreQueued => th.step.ToStore?
    case StoreFails => th.step.ToStore?
    case SubmitPending => th.step.ToSubmit?
    case SubmitDeploy => th.step.ToDeploy?
    case Abandon => th.step.ToSubmit? || th.step.ToDeploy?
  }

  /** What `Size` reports: a failed count reads as 0. */
  function SizeRead(s: State, q: QueueName, sizeOk: bool): nat {
    if sizeOk then |Jobs(s.entries, q)| else 0
  }

  /** StartQueues runs one pulling goroutine per trainer and queue. */
  predicate NoPuller(threads: map<ThreadId, Thread>, owner: TrainerId, q: QueueName) {
    forall t | t in threads && threads[t].Pulling? ::
      !(threads[t].lease.owner == owner && threads[t].lease.queue == q)
  }

  predicate Enabled(s: State, a: Action) {
    match a
    case Tick(_) => true
    case PurgeExpired(_) => true
    case PullLock(t, owner, q, stamp) =>
      t !in s.threads && NoPuller(s.threads, owner, q) && Free(s.leases, q) && stamp <= s.now
    case Pull(t, op) => t in s.threads && s.threads[t].Pulling? && PullEnabled(s, s.threads[t], op)
    case DeleteLock(t, owner, q, id, stamp) =>
      t !in s.threads && Free(s.leases, q) && stamp <= s.now && id in s.docs
    case Delete(t, op) => t in s.threads && DeleteEnabled(s, s.threads[t], op)
    case CreateCheck(t, q, id, doc, sizeOk) =>
      t !in s.threads && id !in s.home && doc.status == QUEUED && !doc.deleted && Resolves(doc)
      && (s.limit > 0 ==> SizeRead(s, q, sizeOk) < s.limit)
    case Create(t, op) => t in s.threads && s.threads[t].Creating? && CreateEnabled(s, s.threads[t], op)
    case Update(id, doc) => id in s.docs && doc.status != QUEUED
    case SoftDelete(id, _) => id in s.docs
  }

  // ---- what an action does ----

  function Goto(s: State, t: ThreadId, pc: PullPc): State
    requires t in s.threads && s.threads[t].Pulling?
  {
    s.(threads := s.threads[t := s.threads[t].(pc := pc)])
  }

  function Insert(s: State, q: QueueName, id: TrainingId, stamp: nat): State {
    s.(entries := s.entries + [Entry(s.nextKey, q, id, stamp)], nextKey := s.nextKey + 1)
  }

  function End(s: State, t: ThreadId): State {
    s.(threads := s.threads - {t})
  }

  function ApplyPull(s: State, t: ThreadId, op: PullOp): State
    requires t in s.threads && s.threads[t].Pulling? && PullEnabled(s, s.threads[t], op)
  {
    var th := s.threads[t];
    match op
    case Peek => Goto(s, t, Peeked(Earliest(s.entries, th.lease.queue).value.id))
    case Find =>
      var id := th.pc.id;
      if LiveQueued(s.docs, id) then Goto(s, t, Found(id, s.docs[id])) else Goto(s, t, Stale(id, id !in s.docs))
    case DropStale(key) =>
      var lost := if th.pc.missing then {th.pc.id} else {};
      Goto(s.(entries := RemoveEntry(s.entries, key), stranded := s.stranded + lost), t, Leaving)
    case StorePending =>
      var id := th.pc.id;
      Goto(s.(docs := s.docs[id := th.pc.doc.(status := PENDING)], submitted := s.submitted + {id}), t, Stored(id))
    case Deploy(ok) =>
      Goto(s.(deployed := s.deployed + [th.pc.id]), t, if ok then Sent(th.pc.id) else Leaving)
    case DequeueFind => Goto(s, t, Removing(th.pc.id, Earliest(s.entries, th.lease.queue).value))
    case DequeueRemove =>
      var e := th.pc.entry;
      var next := if e.id == th.pc.id then Leaving else Holding(th.pc.id, e.id);
      Goto(s.(entries := RemoveEntry(s.entries, e.key)), t, next)
    case Reenqueue(stamp) => Goto(Insert(s, th.lease.queue, th.pc.other, stamp), t, Leaving)
    case ReenqueueFails => Goto(s.(stranded := s.stranded + {th.pc.other}), t, Leaving)
    case GiveUp => Goto(s, t, Leaving)
    case Unlock(ok) =>
      End(if ok then s.(leases := Release(s.leases, th.lease.queue, th.lease.owner)) else s, t)
  }

  function ApplyDelete(s: State, t: ThreadId, op: DeleteOp): State
    requires t in s.threads && DeleteEnabled(s, s.threads[t], op)
  {
    var th := s.threads[t];
    match op
    case Take(key) =>
      s.(entries := RemoveEntry(s.entries, key), threads := s.threads[t := th.(at := Done(true))])
    case Skip => s.(threads := s.threads[t := th.(at := Done(false))])
    case ReleaseLock(ok) =>
      var s' := if ok then s.(leases := Release(s.leases, th.lease.queue, th.lease.owner)) else s;
      s'.(threads := s.threads[t := Erasing(th.victim, th.at.took)])
    case Erase(status) => End(s.(docs := s.docs[th.victim := Doc(status, true, "", [])]), t)
    case EraseFails => End(s.(stranded := s.stranded + if th.tookEntry then {th.victim} else {}), t)
  }

  function ApplyCreate(s: State, t: ThreadId, op: CreateOp): State
    requires t in s.threads && s.threads[t].Creating? && CreateEnabled(s, s.threads[t], op)
  {
    var th := s.threads[t];
    var id := th.newId;
    match op
    case Enqueue(stamp) => Insert(s, th.queue, id, stamp).(threads := s.threads[t := th.(step := ToStore)])
    case EnqueueFails(stored) =>
      End(if stored then s.(docs := s.docs[id := th.newDoc.(status := FAILED)]) else s, t)
    case StoreQueued => End(s.(docs := s.docs[id := th.newDoc]), t)
    case StoreFails => End(s, t)
    case SubmitPending =>
      s.(docs := s.docs[id := th.newDoc.(status := PENDING)], submitted := s.submitted + {id},
         threads := s.threads[t := th.(step := ToDeploy)])
    case SubmitDeploy => End(s.(deployed := s.deployed + [id]), t)
    case Abandon => End(s, t)
  }

  function TakeLease(s: State, owner: TrainerId, q: QueueName, stamp: nat): (r: (State, Lease)) {
    var l := Lease(s.nextLease, q, owner, stamp + LOCK_EXPIRATION);
    (s.(leases := s.leases + {l}, nextLease := s.nextLease + 1), l)
  }

  function Apply(s: State, a: Action): State
    requires Enabled(s, a)
  {
    match a
    case Tick(d) => s.(now := s.now + d)
    case PurgeExpired(q) => s.(leases := Purge(s.leases, q, s.now))
    case PullLock(t, owner, q, stamp) =>
      var (s', l) := TakeLease(s, owner, q, stamp);
      s'.(threads := s.threads[t := Pulling(l, Locked)])
    case Pull(t, op) => ApplyPull(s, t, op)
    case DeleteLock(t, owner, q, id, stamp) =>
      var (s', l) := TakeLease(s, owner, q, stamp);
      s'.(threads := s.threads[t := Deleting(l, id, AboutToTake)])
    case Delete(t, op) => ApplyDelete(s, t, op)
    case CreateCheck(t, q, id, doc, sizeOk) =>
      var step := if SizeRead(s, q, sizeOk) == 0 then ToSubmit else ToEnqueue;
      s.(home := s.home[id := Birth(q, s.births)], births := s.births + 1,
         threads := s.threads[t := Creating(q, id, doc, step)])
    case Create(t, op) => ApplyCreate(s, t, op)
    case Update(id, doc) => s.(docs := s.docs[id := doc])
    case SoftDelete(id, status) => s.(docs := s.docs[id := Doc(status, true, "", [])])
  }

  /** The goroutine an action belongs to, if any. */
  predicate ActsFor(a: Action, t: ThreadId) {
    match a
    case PullLock(u, _, _, _) => t == u
    case Pull(u, _) => t == u
    case DeleteLock(u, _, _, _, _) => t == u
    case Delete(u, _) => t == u
    case CreateCheck(u, _, _, _, _) => t == u
    case Create(u, _) => t == u
    case _ => false
  }

  lemma {:induction false} OthersWaitForPull(s: State, u: ThreadId, op: PullOp, t: ThreadId)
    requires u in s.threads && s.threads[u].Pulling? && PullEnabled(s, s.threads[u], op) && t != u
    ensures t in ApplyPull(s, u, op).threads <==> t in s.threads
    ensures t in s.threads ==> ApplyPull(s, u, op).threads[t] == s.threads[t]
  {
  }

  /** An action leaves the other goroutines where they are. */
  lemma {:induction false} OthersWait(s: State, a: Action, t: ThreadId)
    requires Enabled(s, a) && !ActsFor(a, t)
    ensures t in Apply(s, a).threads <==> t in s.threads
    ensures t in s.threads ==> Apply(s, a).threads[t] == s.threads[t]
  {
    if a.Pull? { OthersWaitForPull(s, a.t, a.pull, t); }
  }

  /** The training an action sends to LCM, if any. */
  function SentBy(s: State, a: Action): seq<TrainingId>
    requires Enabled(s, a)
  {
    if a.Pull? && a.pull.Deploy? then [s.threads[a.t].pc.id]
    else if a.Create? && a.create.SubmitDeploy? then [s.threads[a.t].newId]
    else []
  }

  /** The training an action stores as PENDING on its way to LCM, if any. */
  function SubmittedBy(s: State, a: Action): set<TrainingId>
    requires Enabled(s, a)
  {
    if a.Pull? && a.pull.StorePending? then {s.threads[a.t].pc.id}
    else if a.Create? && a.create.SubmitPending? then {s.threads[a.t].newId}
    else {}
  }

  lemma {:induction false} History(s: State, a: Action)
    requires Enabled(s, a)
    ensures Apply(s, a).deployed == s.deployed + SentBy(s, a)
    ensures Apply(s, a).submitted == s.submitted + SubmittedBy(s, a)
    ensures forall id | id in s.home :: id in Apply(s, a).home && Apply(s, a).home[id] == s.home[id]
  {
    if a.Pull? { HistoryForPull(s, a.t, a.pull); }
  }

  lemma {:induction false} HistoryForPull(s: State, t: ThreadId, op: PullOp)
    requires Enabled(s, Pull(t, op))
    ensures var s' := ApplyPull(s, t, op);
            && s'.deployed == s.deployed + SentBy(s, Pull(t, op))
            && s'.submitted == s.submitted + SubmittedBy(s, Pull(t, op))
            && s'.home == s.home
  {
  }

  /** The entry an action inserts, if any. */
  function InsertedBy(s: State, a: Action): seq<Entry>
    requires Enabled(s, a)
  {
    if a.Pull? && a.pull.Reenqueue? then
      [Entry(s.nextKey, s.threads[a.t].lease.queue, s.threads[a.t].pc.other, a.pull.stamp)]
    else if a.Create? && a.create.Enqueue? then
      [Entry(s.nextKey, s.threads[a.t].queue, s.threads[a.t].newId, a.create.stamp)]
    else []
  }

  /** The key an action removes from the queue collection, if any. */
  function RemovedBy(s: State, a: Action): Option<nat>
    requires Enabled(s, a)
  {
    if a.Pull? && a.pull.DropStale? then Some(a.pull.key)
    else if a.Pull? && a.pull.DequeueRemove? then Some(s.threads[a.t].pc.entry.key)
    else if a.Delete? && a.del.Take? then Some(a.del.key)
    else None
  }

  lemma {:induction false} EntriesChange(s: State, a: Action)
    requires Enabled(s, a)
    ensures RemovedBy(s, a).None? ==> Apply(s, a).entries == s.entries + InsertedBy(s, a)
    ensures RemovedBy(s, a).Some? ==> Apply(s, a).entries == RemoveEntry(s.entries, RemovedBy(s, a).value)
    ensures s.nextKey + |InsertedBy(s, a)| <= Apply(s, a).nextKey && s.now <= Apply(s, a).now
  {
    if a.Pull? { EntriesChangeForPull(s, a.t, a.pull); }
  }

  lemma {:induction false} EntriesChangeForPull(s: State, t: ThreadId, op: PullOp)
    requires Enabled(s, Pull(t, op))
    ensures var a := Pull(t, op); var s' := ApplyPull(s, t, op);
            && (RemovedBy(s, a).None? ==> s'.entries == s.entries + InsertedBy(s, a))
            && (RemovedBy(s, a).Some? ==> s'.entries == RemoveEntry(s.entries, RemovedBy(s, a).value))
            && s.nextKey + |InsertedBy(s, a)| <= s'.nextKey && s.now == s'.now
  {
  }

  // ---- runs ----

  /** `ss` is the run that `acts` drives: every action is enabled and leads to the next state. */
  ghost predicate Behaviour(ss: seq<State>, acts: seq<Action>) {
    && |ss| == |acts| + 1
    && forall i | 0 <= i < |acts| :: Enabled(ss[i], acts[i]) && ss[i + 1] == Apply(ss[i], acts[i])
  }

  function Last(ss: seq<State>): State
    requires ss != []
  {
    ss[|ss| - 1]
  }

  /** A run without its last action is a run. */
  lemma {:induction false} Shorter(ss: seq<State>, acts: seq<Action>)
    requires Behaviour(ss, acts) && acts != []
    ensures Behaviour(ss[..|acts|], acts[..|acts| - 1])
    ensures Last(ss[..|acts|]) == ss[|acts| - 1] && Last(ss) == Apply(ss[|acts| - 1], acts[|acts| - 1])
  {
  }

  // ---- the persisted database a run starts from ----

  /** Every job document or queue entry belongs to an id handed out before, keys are old, and entries sit in the
      queue of their job. */
  ghost predicate WellFormedDatabase(s: State) {
    && OneLeasePerQueue(s.leases)
    && (forall l | l in s.leases :: l.key < s.nextLease && l.expires <= s.now + LOCK_EXPIRATION)
    && (forall e | e in s.entries :: e.key < s.nextKey && e.id in s.home && s.home[e.id].queue == e.queue)
    && (forall e, f | e in s.entries && f in s.entries && e.key == f.key :: e == f)
    && (forall id | id in s.docs :: id in s.home)
    && (forall id | id in s.home :: s.home[id].number < s.births)
    && (forall id | id in s.submitted :: id in s.docs && !LiveQueued(s.docs, id))
    && (forall id | id in s.deployed :: id in s.submitted)
    && (forall id | LiveQueued(s.docs, id) :: Resolves(s.docs[id]))
  }

  /** No request is running and no QUEUED record is without its queue entry. */
  ghost predicate Init(s: State) {
    && WellFormedDatabase(s)
    && s.threads == map[]
    && s.stranded == {}
    && (forall i, j | 0 <= i < j < |s.deployed| :: s.deployed[i] != s.deployed[j])
    && (forall id | LiveQueued(s.docs, id) :: exists e | e in s.entries :: e.id == id)
  }
}
