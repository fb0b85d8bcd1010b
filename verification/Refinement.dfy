// The trainer's atomic requests are runs of the protocol: each is a sequence of protocol actions by one goroutine that
// nobody interrupts. RefinedRuns puts them together to runs.
module Refinement {
  import opened Wrappers
  import opened JobStatus
  import AtMostOnce
  import opened Entries
  import opened Records
  import opened Repository
  import opened JobQueue
  import opened TrainerOps
  import opened TrainerRuns
  import opened PullTicks
  import P = Protocol

  // ---- runs of actions ----

  /** Each of the actions is enabled, and a pull stores PENDING only while its own lease is there. */
  ghost predicate Leads(s: P.State, acts: seq<P.Action>, s': P.State)
    decreases |acts|
  {
    if acts == [] then s == s'
    else P.Enabled(s, acts[0]) && AtMostOnce.Fenced(s, acts[0]) && Leads(P.Apply(s, acts[0]), acts[1..], s')
  }

  /** Such a sequence of actions is a behaviour of the protocol. */
  lemma {:induction false} LeadsIsBehaviour(s: P.State, acts: seq<P.Action>, s': P.State) returns (ss: seq<P.State>)
    requires Leads(s, acts, s')
    ensures P.Behaviour(ss, acts) && AtMostOnce.FencedRun(ss, acts) && ss[0] == s && P.Last(ss) == s'
    decreases |acts|
  {
    if acts == [] { return [s]; }
    var rest := LeadsIsBehaviour(P.Apply(s, acts[0]), acts[1..], s');
    ss := [s] + rest;
    forall i | 0 <= i < |acts|
      ensures P.Enabled(ss[i], acts[i]) && ss[i + 1] == P.Apply(ss[i], acts[i]) && AtMostOnce.Fenced(ss[i], acts[i])
    {
      if i > 0 { assert ss[i] == rest[i - 1] && ss[i + 1] == rest[i] && acts[i] == acts[1..][i - 1]; }
    }
  }

  lemma {:induction false} One(s: P.State, a: P.Action, s': P.State)
    requires P.Enabled(s, a) && AtMostOnce.Fenced(s, a) && P.Apply(s, a) == s'
    ensures Leads(s, [a], s')
  {
  }

  lemma {:induction false} Join(s: P.State, acts: seq<P.Action>, mid: P.State, more: seq<P.Action>, s': P.State)
    requires Leads(s, acts, mid) && Leads(mid, more, s')
    ensures Leads(s, acts + more, s')
    decreases |acts|
  {
    if acts == [] {
      assert acts + more == more;
    } else {
      assert (acts + more)[0] == acts[0] && (acts + more)[1..] == acts[1..] + more;
      Join(P.Apply(s, acts[0]), acts[1..], mid, more, s');
    }
  }

  /** The protocol's state shows the database. */
  ghost predicate Shows(s: P.State, w: World) {
    && Consistent(w.docs, w.nextDoc) && s.docs == View(w.docs, w.nextDoc)
    && s.entries == w.entries && s.nextKey == w.nextEntry && s.deployed == w.deployed
  }

  // ---- a round of pulling ----

  /** `s` with a goroutine that holds `l` at `pc`. */
  function Inside(s: P.State, t: P.ThreadId, l: Lease, pc: P.PullPc): P.State {
    s.(threads := s.threads[t := P.Pulling(l, pc)])
  }

  /** `s` after the lease `l` has been inserted. */
  function Leased(s: P.State, l: Lease): P.State {
    s.(leases := s.leases + {l}, nextLease := s.nextLease + 1)
  }

  /** `s` after the lease has been given back, if Unlock's query succeeded. */
  function Left(s: P.State, l: Lease, ok: bool): P.State {
    if ok then s.(leases := Release(s.leases, l.queue, l.owner)) else s
  }

  /** One step of the goroutine, which only changes its place and the database. */
  lemma {:induction false} Step(s: P.State, t: P.ThreadId, l: Lease, pc: P.PullPc, op: P.PullOp, s': P.State,
                                pc': P.PullPc)
    requires var th := P.Pulling(l, pc);
      P.PullEnabled(s, th, op) && !op.Unlock? && (op.StorePending? ==> l in s.leases)
      && P.ApplyPull(Inside(s, t, l, pc), t, op) == Inside(s', t, l, pc')
    ensures Leads(Inside(s, t, l, pc), [P.Pull(t, op)], Inside(s', t, l, pc'))
  {
  }

  lemma {:induction false} Enter(s: P.State, t: P.ThreadId, owner: TrainerId, q: QueueName, l: Lease)
    requires t !in s.threads && P.NoPuller(s.threads, owner, q) && Free(s.leases, q)
    requires l == Lease(s.nextLease, q, owner, s.now + LOCK_EXPIRATION)
    ensures Leads(s, [P.PullLock(t, owner, q, s.now)], Inside(Leased(s, l), t, l, P.Locked))
  {
  }

  /** Leaving the round from where the code returns early, and unlocking. */
  lemma {:induction false} Leave(s: P.State, t: P.ThreadId, l: Lease, pc: P.PullPc, ok: bool)
    returns (acts: seq<P.Action>)
    requires t !in s.threads && !pc.Holding?
    ensures Leads(Inside(s, t, l, pc), acts, Left(s, l, ok))
  {
    var unlock := P.Pull(t, P.Unlock(ok));
    assert Inside(s, t, l, P.Leaving).threads - {t} == s.threads;
    One(Inside(s, t, l, P.Leaving), unlock, Left(s, l, ok));
    acts := [unlock];
    if !pc.Leaving? {
      assert Inside(s, t, l, pc).threads[t := P.Pulling(l, P.Leaving)] == Inside(s, t, l, P.Leaving).threads;
      Step(s, t, l, pc, P.GiveUp, s, P.Leaving);
      Join(Inside(s, t, l, pc), [P.Pull(t, P.GiveUp)], Inside(s, t, l, P.Leaving), acts, Left(s, l, ok));
      acts := [P.Pull(t, P.GiveUp)] + acts;
    }
  }

  /** Peek and Find, up to the decision on the record. */
  lemma {:induction false} Look(s: P.State, t: P.ThreadId, l: Lease, e: Entry, pc: P.PullPc)
    requires Earliest(s.entries, l.queue) == Some(e)
    requires pc == if P.LiveQueued(s.docs, e.id) then P.Found(e.id, s.docs[e.id]) else P.Stale(e.id, e.id !in s.docs)
    ensures Leads(Inside(s, t, l, P.Locked), [P.Pull(t, P.Peek)] + [P.Pull(t, P.Find)], Inside(s, t, l, pc))
  {
    var peeked := Inside(s, t, l, P.Peeked(e.id));
    assert Inside(s, t, l, P.Locked).threads[t := P.Pulling(l, P.Peeked(e.id))] == peeked.threads;
    Step(s, t, l, P.Locked, P.Peek, s, P.Peeked(e.id));
    assert peeked.threads[t := P.Pulling(l, pc)] == Inside(s, t, l, pc).threads;
    Step(s, t, l, P.Peeked(e.id), P.Find, s, pc);
    Join(Inside(s, t, l, P.Locked), [P.Pull(t, P.Peek)], peeked, [P.Pull(t, P.Find)], Inside(s, t, l, pc));
  }

  /** `s` without one entry; the job may be stranded. */
  function Dropped(s: P.State, key: nat, lost: set<TrainingId>): P.State {
    s.(entries := RemoveEntry(s.entries, key), stranded := s.stranded + lost)
  }

  lemma {:induction false} Drop(s: P.State, t: P.ThreadId, l: Lease, e: Entry, missing: bool)
    requires e in s.entries && e.queue == l.queue
    ensures var s' := Dropped(s, e.key, if missing then {e.id} else {});
      Leads(Inside(s, t, l, P.Stale(e.id, missing)), [P.Pull(t, P.DropStale(e.key))], Inside(s', t, l, P.Leaving))
  {
  }

  function Submitted(s: P.State, id: TrainingId, doc: P.Doc): P.State {
    s.(docs := s.docs[id := doc.(status := PENDING)], submitted := s.submitted + {id})
  }

  lemma {:induction false} StoreStep(s: P.State, t: P.ThreadId, l: Lease, id: TrainingId, doc: P.Doc)
    requires id in s.docs && l in s.leases
    ensures Leads(Inside(s, t, l, P.Found(id, doc)), [P.Pull(t, P.StorePending)],
                  Inside(Submitted(s, id, doc), t, l, P.Stored(id)))
  {
  }

  function DeployedOne(s: P.State, id: TrainingId): P.State {
    s.(deployed := s.deployed + [id])
  }

  lemma {:induction false} DeployStep(s: P.State, t: P.ThreadId, l: Lease, id: TrainingId, ok: bool)
    ensures Leads(Inside(s, t, l, P.Stored(id)), [P.Pull(t, P.Deploy(ok))],
                  Inside(DeployedOne(s, id), t, l, if ok then P.Sent(id) else P.Leaving))
  {
  }

  /** Dequeue of the job just sent. */
  lemma {:induction false} DequeueSteps(s: P.State, t: P.ThreadId, l: Lease, e: Entry)
    requires Earliest(s.entries, l.queue) == Some(e)
    ensures Leads(Inside(s, t, l, P.Sent(e.id)), [P.Pull(t, P.DequeueFind)] + [P.Pull(t, P.DequeueRemove)],
                  Inside(Dropped(s, e.key, {}), t, l, P.Leaving))
  {
    var removing := P.Removing(e.id, e);
    var s' := Dropped(s, e.key, {});
    assert s.stranded + {} == s.stranded;
    assert Inside(s, t, l, P.Sent(e.id)).threads[t := P.Pulling(l, removing)] == Inside(s, t, l, removing).threads;
    Step(s, t, l, P.Sent(e.id), P.DequeueFind, s, removing);
    assert Inside(s, t, l, removing).threads[t := P.Pulling(l, P.Leaving)] == Inside(s', t, l, P.Leaving).threads;
    Step(s, t, l, removing, P.DequeueRemove, s', P.Leaving);
    Join(Inside(s, t, l, P.Sent(e.id)), [P.Pull(t, P.DequeueFind)], Inside(s, t, l, removing),
         [P.Pull(t, P.DequeueRemove)], Inside(s', t, l, P.Leaving));
  }

  /** What the goroutine leaves besides the database: nobody else's place, no id handed out, and no lease of its own
      unless Unlock failed. */
  ghost predicate LeavesAlone(s: P.State, s': P.State, l: Lease, unlock: bool) {
    && s'.threads == s.threads && s'.home == s.home && s'.now == s.now && s'.limit == s.limit && s'.nextKey == s.nextKey
    && s'.leases == if unlock then Release(s.leases, l.queue, l.owner) else s.leases
  }

  /** Steps `acts` of the goroutine followed by leaving. */
  lemma {:induction false} ThenLeave(s: P.State, t: P.ThreadId, l: Lease, acts: seq<P.Action>, m: P.State, pc: P.PullPc,
                                     ok: bool)
    returns (all: seq<P.Action>)
    requires t !in m.threads && !pc.Holding? && Leads(Inside(s, t, l, P.Locked), acts, Inside(m, t, l, pc))
    ensures Leads(Inside(s, t, l, P.Locked), all, Left(m, l, ok))
  {
    var out := Leave(m, t, l, pc, ok);
    Join(Inside(s, t, l, P.Locked), acts, Inside(m, t, l, pc), out, Left(m, l, ok));
    all := acts + out;
  }

  /** A round that finds no QUEUED record: the entry of the job is removed, if the queue's queries succeed. */
  lemma {:induction false} StaleRun(s: P.State, t: P.ThreadId, l: Lease, e: Entry, gone: Option<Entry>, unlock: bool)
    returns (acts: seq<P.Action>, s': P.State)
    requires t !in s.threads && Earliest(s.entries, l.queue) == Some(e) && !P.LiveQueued(s.docs, e.id)
    requires gone.Some? ==> gone.value in s.entries && gone.value.queue == l.queue && gone.value.id == e.id
    ensures Leads(Inside(s, t, l, P.Locked), acts, s') && LeavesAlone(s, s', l, unlock)
    ensures s'.docs == s.docs && s'.deployed == s.deployed
    ensures s'.stranded <= s.stranded + if gone.Some? && e.id !in s.docs then {e.id} else {}
    ensures s'.entries == if gone.Some? then RemoveEntry(s.entries, gone.value.key) else s.entries
  {
    var missing := e.id !in s.docs;
    var stale := P.Stale(e.id, missing);
    var looks := [P.Pull(t, P.Peek)] + [P.Pull(t, P.Find)];
    Look(s, t, l, e, stale);
    if gone.None? {
      acts := ThenLeave(s, t, l, looks, s, stale, unlock);
      s' := Left(s, l, unlock);
    } else {
      var m := Dropped(s, gone.value.key, if missing then {e.id} else {});
      var drop := [P.Pull(t, P.DropStale(gone.value.key))];
      Drop(s, t, l, gone.value, missing);
      Join(Inside(s, t, l, P.Locked), looks, Inside(s, t, l, stale), drop, Inside(m, t, l, P.Leaving));
      acts := ThenLeave(s, t, l, looks + drop, m, P.Leaving, unlock);
      s' := Left(m, l, unlock);
    }
  }

  /** A round that submits the job at the head: how far it gets is what the answers say. */
  lemma {:induction false} TakenRun(s: P.State, t: P.ThreadId, l: Lease, e: Entry, client: bool, deploy: bool,
                                    dequeue: bool, unlock: bool)
    returns (acts: seq<P.Action>, s': P.State)
    requires t !in s.threads && Earliest(s.entries, l.queue) == Some(e) && P.LiveQueued(s.docs, e.id) && l in s.leases
    ensures Leads(Inside(s, t, l, P.Locked), acts, s') && LeavesAlone(s, s', l, unlock) && s'.stranded == s.stranded
    ensures s'.docs == s.docs[e.id := s.docs[e.id].(status := PENDING)]
    ensures s'.deployed == if client then s.deployed + [e.id] else s.deployed
    ensures s'.entries == if client && deploy && dequeue then RemoveEntry(s.entries, e.key) else s.entries
  {
    var m := Submitted(s, e.id, s.docs[e.id]);
    assert s.stranded + {} == s.stranded;
    acts := UpToStore(s, t, l, e);
    if !client {
      acts := ThenLeave(s, t, l, acts, m, P.Stored(e.id), unlock);
      s' := Left(m, l, unlock);
    } else {
      var m1 := DeployedOne(m, e.id);
      DeployStep(m, t, l, e.id, deploy);
      Join(Inside(s, t, l, P.Locked), acts, Inside(m, t, l, P.Stored(e.id)), [P.Pull(t, P.Deploy(deploy))],
           Inside(m1, t, l, if deploy then P.Sent(e.id) else P.Leaving));
      acts := acts + [P.Pull(t, P.Deploy(deploy))];
      if deploy && dequeue {
        acts, s' := ThenDequeue(s, t, l, acts, m1, e, unlock);
      } else {
        acts := ThenLeave(s, t, l, acts, m1, if deploy then P.Sent(e.id) else P.Leaving, unlock);
        s' := Left(m1, l, unlock);
      }
    }
  }

  lemma {:induction false} UpToStore(s: P.State, t: P.ThreadId, l: Lease, e: Entry) returns (acts: seq<P.Action>)
    requires Earliest(s.entries, l.queue) == Some(e) && P.LiveQueued(s.docs, e.id) && l in s.leases
    ensures Leads(Inside(s, t, l, P.Locked), acts, Inside(Submitted(s, e.id, s.docs[e.id]), t, l, P.Stored(e.id)))
  {
    var looks, found := [P.Pull(t, P.Peek)] + [P.Pull(t, P.Find)], P.Found(e.id, s.docs[e.id]);
    Look(s, t, l, e, found);
    StoreStep(s, t, l, e.id, s.docs[e.id]);
    Join(Inside(s, t, l, P.Locked), looks, Inside(s, t, l, found), [P.Pull(t, P.StorePending)],
         Inside(Submitted(s, e.id, s.docs[e.id]), t, l, P.Stored(e.id)));
    acts := looks + [P.Pull(t, P.StorePending)];
  }

  lemma {:induction false} ThenDequeue(s: P.State, t: P.ThreadId, l: Lease, acts: seq<P.Action>, m: P.State, e: Entry,
                                       unlock: bool)
    returns (all: seq<P.Action>, s': P.State)
    requires t !in m.threads && Earliest(m.entries, l.queue) == Some(e)
    requires Leads(Inside(s, t, l, P.Locked), acts, Inside(m, t, l, P.Sent(e.id)))
    ensures s' == Left(Dropped(m, e.key, {}), l, unlock) && Leads(Inside(s, t, l, P.Locked), all, s')
  {
    var m1 := Dropped(m, e.key, {});
    var dequeue := [P.Pull(t, P.DequeueFind)] + [P.Pull(t, P.DequeueRemove)];
    DequeueSteps(m, t, l, e);
    Join(Inside(s, t, l, P.Locked), acts, Inside(m, t, l, P.Sent(e.id)), dequeue, Inside(m1, t, l, P.Leaving));
    all := ThenLeave(s, t, l, acts + dequeue, m1, P.Leaving, unlock);
    s' := Left(m1, l, unlock);
  }

  // ---- the atomic round ----

  /** The round gets to see the record of the job at the head. */
  predicate Looks(w: World, q: QueueName, a: RoundAnswers) {
    a.lock && a.size && a.peek && a.find && Jobs(w.entries, q) != [] && Jobs(w.entries, q)[0].id != ""
  }

  lemma {:induction false} StaleWorld(w: World, q: QueueName, a: RoundAnswers)
    requires WorldOk(w) && Looks(w, q, a) && !WaitsInQueue(w.docs, Jobs(w.entries, q)[0].id)
    ensures var id := Jobs(w.entries, q)[0].id;
      Round(w, q, a).0 == w.(entries := DropEntry(w.entries, q, id, a.queueFind && a.queueRemove))
  {
  }

  lemma {:induction false} IdleWorld(w: World, q: QueueName, a: RoundAnswers)
    requires WorldOk(w) && !Takes(w, q, a) && (Looks(w, q, a) ==> WaitsInQueue(w.docs, Jobs(w.entries, q)[0].id))
    ensures Round(w, q, a).0 == w
  {
  }

  lemma {:induction false} TakenWorld(w: World, q: QueueName, a: RoundAnswers)
    requires WorldOk(w) && Takes(w, q, a)
    ensures Looks(w, q, a) && WaitsInQueue(w.docs, Jobs(w.entries, q)[0].id)
    ensures var w', e := Round(w, q, a).0, Jobs(w.entries, q)[0];
      && w'.nextDoc == w.nextDoc && w'.nextEntry == w.nextEntry
      && w'.deployed == (if a.submit.client then w.deployed + [e.id] else w.deployed)
      && w'.entries == (if a.submit.client && a.submit.deploy && a.dequeueFind && a.dequeueRemove
                        then RemoveEntry(w.entries, e.key) else w.entries)
  {
  }

  lemma {:induction false} TakenView(w: World, q: QueueName, a: RoundAnswers)
    requires WorldOk(w) && Takes(w, q, a)
    ensures Jobs(w.entries, q) != [] && Consistent(Round(w, q, a).0.docs, w.nextDoc)
    ensures var id, docs := Jobs(w.entries, q)[0].id, View(w.docs, w.nextDoc);
      id in docs && View(Round(w, q, a).0.docs, w.nextDoc) == docs[id := docs[id].(status := PENDING)]
  {
    RoundDocsAt(w, q, a);
    var c := ChangeOf(w, RoundOp(q, a));
    ReplaceAt(w.docs, w.nextDoc, c.k, c.to);
    assert w.docs[c.k] in w.docs;
    ViewAt(w.docs, w.nextDoc, w.docs[c.k]);
    TakenDoc(w, q, a);
  }

  lemma {:induction false} TakenDoc(w: World, q: QueueName, a: RoundAnswers)
    requires WorldOk(w) && Takes(w, q, a) && ChangeOf(w, RoundOp(q, a)).Rewrite?
    requires var c := ChangeOf(w, RoundOp(q, a));
      c.k < |w.docs| && FindDoc(w.docs, c.to.trainingID) == Some(w.docs[c.k])
    ensures var c := ChangeOf(w, RoundOp(q, a)); DocOf(c.to) == DocOf(w.docs[c.k]).(status := PENDING)
  {
  }

  /** The ids that a run from `s` to `s'` may have stranded: of failed deletes, and of entries without a record. */
  ghost predicate StrandsFew(s: P.State, s': P.State, failed: set<TrainingId>) {
    forall id | id in s'.stranded ::
      id in s.stranded || (id in failed && id in s.docs) || (id !in s.docs && exists e | e in s.entries :: e.id == id)
  }

  /** What the goroutine does under its lease. */
  lemma {:induction false} UnderLease(w: World, q: QueueName, a: RoundAnswers, s: P.State, t: P.ThreadId, l: Lease)
    returns (acts: seq<P.Action>, s': P.State)
    requires WorldOk(w) && InOrder(w.entries) && Shows(s, w) && t !in s.threads && l.queue == q && l in s.leases
    requires a.lock
    ensures Leads(Inside(s, t, l, P.Locked), acts, s') && Shows(s', Round(w, q, a).0) && LeavesAlone(s, s', l, a.unlock)
    ensures StrandsFew(s, s', {})
  {
    if Takes(w, q, a) {
      acts, s' := TakenUnderLease(w, q, a, s, t, l);
    } else if Looks(w, q, a) && !WaitsInQueue(w.docs, Jobs(w.entries, q)[0].id) {
      acts, s' := StaleUnderLease(w, q, a, s, t, l);
    } else {
      IdleWorld(w, q, a);
      acts := Leave(s, t, l, P.Locked, a.unlock);
      s' := Left(s, l, a.unlock);
    }
  }

  lemma {:induction false} TakenUnderLease(w: World, q: QueueName, a: RoundAnswers, s: P.State, t: P.ThreadId, l: Lease)
    returns (acts: seq<P.Action>, s': P.State)
    requires WorldOk(w) && InOrder(w.entries) && Shows(s, w) && t !in s.threads && l.queue == q && l in s.leases
    requires Takes(w, q, a)
    ensures Leads(Inside(s, t, l, P.Locked), acts, s')
    ensures Shows(s', Round(w, q, a).0) && LeavesAlone(s, s', l, a.unlock) && s'.stranded == s.stranded
  {
    EarliestIsFirst(w.entries, q);
    TakenWorld(w, q, a);
    TakenView(w, q, a);
    var e := Jobs(w.entries, q)[0];
    FindSeesLiveQueued(w.docs, w.nextDoc, e.id);
    acts, s' := TakenRun(s, t, l, e, a.submit.client, a.submit.deploy, a.dequeueFind && a.dequeueRemove, a.unlock);
  }

  lemma {:induction false} StaleUnderLease(w: World, q: QueueName, a: RoundAnswers, s: P.State, t: P.ThreadId, l: Lease)
    returns (acts: seq<P.Action>, s': P.State)
    requires WorldOk(w) && InOrder(w.entries) && Shows(s, w) && t !in s.threads && l.queue == q
    requires Looks(w, q, a) && !WaitsInQueue(w.docs, Jobs(w.entries, q)[0].id)
    ensures Leads(Inside(s, t, l, P.Locked), acts, s')
    ensures Shows(s', Round(w, q, a).0) && LeavesAlone(s, s', l, a.unlock) && StrandsFew(s, s', {})
  {
    EarliestIsFirst(w.entries, q);
    StaleWorld(w, q, a);
    var e := Jobs(w.entries, q)[0];
    FindSeesLiveQueued(w.docs, w.nextDoc, e.id);
    var gone := EntryGone(w.entries, q, e.id, a.queueFind && a.queueRemove);
    acts, s' := StaleRun(s, t, l, e, gone, a.unlock);
    assert e in s.entries;
  }

  /** What a request leaves besides the database: nobody else's place and, unless Unlock failed, the leases. */
  ghost predicate Undisturbed(s: P.State, s': P.State, unlocked: bool) {
    && s'.threads == s.threads && s'.now == s.now && s'.limit == s.limit
    && (forall l | l in s'.leases && l !in s.leases :: l.expires == s.now + LOCK_EXPIRATION)
    && (unlocked ==> s'.leases == s.leases)
  }

  lemma {:induction false} RoundRun(w: World, q: QueueName, a: RoundAnswers, s: P.State, t: P.ThreadId,
                                    owner: TrainerId)
    returns (acts: seq<P.Action>, s': P.State)
    requires WorldOk(w) && InOrder(w.entries) && Shows(s, w)
    requires t !in s.threads && P.NoPuller(s.threads, owner, q) && (a.lock ==> Free(s.leases, q))
    ensures Leads(s, acts, s') && Shows(s', Round(w, q, a).0)
    ensures Undisturbed(s, s', !a.lock || a.unlock) && s'.home == s.home && StrandsFew(s, s', {})
  {
    if !a.lock {
      assert Round(w, q, a).0 == w;
      return [], s;
    }
    var l := Lease(s.nextLease, q, owner, s.now + LOCK_EXPIRATION);
    var m := Leased(s, l);
    Enter(s, t, owner, q, l);
    var under;
    under, s' := UnderLease(w, q, a, m, t, l);
    var lock := [P.PullLock(t, owner, q, s.now)];
    Join(s, lock, Inside(m, t, l, P.Locked), under, s');
    acts := lock + under;
    assert a.unlock ==> s'.leases == s.leases;
  }

  /** Main result: a round of pulling is a run of the protocol. */
  lemma {:induction false} RoundRefinesProtocol(w: World, q: QueueName, a: RoundAnswers, s: P.State, t: P.ThreadId,
                                                owner: TrainerId)
    returns (ss: seq<P.State>, acts: seq<P.Action>)
    requires WorldOk(w) && InOrder(w.entries) && Shows(s, w)
    requires t !in s.threads && P.NoPuller(s.threads, owner, q) && Free(s.leases, q)
    ensures P.Behaviour(ss, acts) && AtMostOnce.FencedRun(ss, acts) && ss[0] == s
    ensures var s' := P.Last(ss);
      Shows(s', Round(w, q, a).0) && Undisturbed(s, s', !a.lock || a.unlock) && s'.home == s.home
  {
    var s';
    acts, s' := RoundRun(w, q, a, s, t, owner);
    ss := LeadsIsBehaviour(s, acts, s');
  }

  // ---- updates ----

  lemma {:induction false} UpdateRun(w: World, req: UpdateRequest, now: string, ua: UpdateAnswers, s: P.State)
    returns (acts: seq<P.Action>, s': P.State)
    requires WorldOk(w) && Shows(s, w) && req.status != QUEUED
    ensures Leads(s, acts, s') && |acts| <= 1 && Shows(s', Update(w, req, now, ua).0)
    ensures s' == s.(docs := s'.docs) && s'.docs.Keys == s.docs.Keys
  {
    UpdateSends(w, req, now, ua);
    var c := UpdateChange(w, req, now, ua);
    if c.Same? {
      UpdateDocs(w, req, now, ua);
      return [], s;
    }
    UpdateView(w, req, now, ua);
    var a := P.Update(req.id, DocOf(c.to));
    s' := s.(docs := s.docs[req.id := DocOf(c.to)]);
    One(s, a, s');
    acts := [a];
  }

  lemma {:induction false} UpdateView(w: World, req: UpdateRequest, now: string, ua: UpdateAnswers)
    requires WorldOk(w) && UpdateChange(w, req, now, ua).Rewrite?
    ensures var w', c, view := Update(w, req, now, ua).0, UpdateChange(w, req, now, ua), View(w.docs, w.nextDoc);
      && Consistent(w'.docs, w'.nextDoc) && req.id in view && DocOf(c.to).status == req.status
      && View(w'.docs, w'.nextDoc) == view[req.id := DocOf(c.to)]
  {
    UpdateDocs(w, req, now, ua);
    var c := UpdateChange(w, req, now, ua);
    FoundAt(w.docs, w.nextDoc, req.id);
    ReplaceAt(w.docs, w.nextDoc, c.k, c.to);
    ViewAt(w.docs, w.nextDoc, w.docs[c.k]);
  }

  /** An update is one write of the protocol, or none. */
  lemma {:induction false} UpdateRefinesProtocol(w: World, req: UpdateRequest, now: string, ua: UpdateAnswers,
                                                 s: P.State)
    returns (ss: seq<P.State>, acts: seq<P.Action>)
    requires WorldOk(w) && Shows(s, w) && req.status != QUEUED
    ensures P.Behaviour(ss, acts) && ss[0] == s && |acts| <= 1
    ensures var s' := P.Last(ss);
      Shows(s', Update(w, req, now, ua).0) && s' == s.(docs := s'.docs)
  {
    var s';
    acts, s' := UpdateRun(w, req, now, ua, s);
    ss := LeadsIsBehaviour(s, acts, s');
  }

  lemma {:induction false} UpdateSends(w: World, req: UpdateRequest, now: string, ua: UpdateAnswers)
    requires WorldOk(w)
    ensures var w' := Update(w, req, now, ua).0;
      w'.entries == w.entries && w'.nextEntry == w.nextEntry && w'.deployed == w.deployed
  {
  }

  // ---- deletes ----

  /** `s` with a goroutine inside a delete. */
  function Within(s: P.State, t: P.ThreadId, th: P.Thread): P.State {
    s.(threads := s.threads[t := th])
  }

  /** deleteJobFromQueue under its lease, up to the erasure of the record. */
  lemma {:induction false} TakeFromQueue(s: P.State, t: P.ThreadId, l: Lease, id: TrainingId, gone: Option<Entry>,
                                         unlock: bool)
    returns (acts: seq<P.Action>, m: P.State)
    requires gone.Some? ==> gone.value in s.entries && gone.value.queue == l.queue && gone.value.id == id
    ensures Leads(Within(s, t, P.Deleting(l, id, P.AboutToTake)), acts, Within(m, t, P.Erasing(id, gone.Some?)))
    ensures var rest := if gone.Some? then RemoveEntry(s.entries, gone.value.key) else s.entries;
      m == Left(s.(entries := rest), l, unlock)
  {
    var start := Within(s, t, P.Deleting(l, id, P.AboutToTake));
    var take := P.Delete(t, if gone.Some? then P.Take(gone.value.key) else P.Skip);
    var taken := s.(entries := if gone.Some? then RemoveEntry(s.entries, gone.value.key) else s.entries);
    var done := Within(taken, t, P.Deleting(l, id, P.Done(gone.Some?)));
    assert start.threads[t := P.Deleting(l, id, P.Done(gone.Some?))] == done.threads;
    One(start, take, done);
    m := Left(taken, l, unlock);
    var release := P.Delete(t, P.ReleaseLock(unlock));
    assert done.threads[t := P.Erasing(id, gone.Some?)] == Within(m, t, P.Erasing(id, gone.Some?)).threads;
    One(done, release, Within(m, t, P.Erasing(id, gone.Some?)));
    Join(start, [take], done, [release], Within(m, t, P.Erasing(id, gone.Some?)));
    acts := [take] + [release];
  }

  function AfterErase(s: P.State, id: TrainingId, ok: bool, status: Status): P.State {
    if ok then s.(docs := s.docs[id := P.Doc(status, true, "", [])]) else s
  }

  lemma {:induction false} EraseStep(s: P.State, t: P.ThreadId, id: TrainingId, took: bool, ok: bool, status: Status)
    returns (act: P.Action, s': P.State)
    requires t !in s.threads && id in s.docs
    ensures Leads(Within(s, t, P.Erasing(id, took)), [act], s')
    ensures s' == AfterErase(s, id, ok, status).(stranded := s'.stranded)
    ensures s'.stranded <= s.stranded + if ok then {} else {id}
  {
    var start := Within(s, t, P.Erasing(id, took));
    act := P.Delete(t, if ok then P.Erase(status) else P.EraseFails);
    assert start.threads - {t} == s.threads;
    s' := P.Apply(start, act);
    One(start, act, s');
  }

  /** The whole of a delete that gets the lock of the queue. */
  lemma {:induction false} QueuedDeleteRun(s: P.State, t: P.ThreadId, owner: TrainerId, q: QueueName, id: TrainingId,
                                           gone: Option<Entry>, unlock: bool, ok: bool, status: Status)
    returns (acts: seq<P.Action>, s': P.State)
    requires t !in s.threads && Free(s.leases, q) && id in s.docs
    requires gone.Some? ==> gone.value in s.entries && gone.value.queue == q && gone.value.id == id
    ensures Leads(s, acts, s') && Undisturbed(s, s', unlock) && s'.home == s.home && s'.deployed == s.deployed
    ensures s'.docs == AfterErase(s, id, ok, status).docs && s'.nextKey == s.nextKey
    ensures s'.stranded <= s.stranded + if ok then {} else {id}
    ensures s'.entries == if gone.Some? then RemoveEntry(s.entries, gone.value.key) else s.entries
  {
    var l := Lease(s.nextLease, q, owner, s.now + LOCK_EXPIRATION);
    var m;
    acts, m := LockAndTake(s, t, l, id, gone, unlock);
    var erase, end := EraseStep(m, t, id, gone.Some?, ok, status);
    Join(s, acts, Within(m, t, P.Erasing(id, gone.Some?)), [erase], end);
    acts, s' := acts + [erase], end;
    assert unlock ==> Release(s.leases + {l}, q, owner) == s.leases;
  }

  lemma {:induction false} LockAndTake(s: P.State, t: P.ThreadId, l: Lease, id: TrainingId, gone: Option<Entry>,
                                       unlock: bool)
    returns (acts: seq<P.Action>, m: P.State)
    requires t !in s.threads && Free(s.leases, l.queue) && id in s.docs
    requires l == Lease(s.nextLease, l.queue, l.owner, s.now + LOCK_EXPIRATION)
    requires gone.Some? ==> gone.value in s.entries && gone.value.queue == l.queue && gone.value.id == id
    ensures Leads(s, acts, Within(m, t, P.Erasing(id, gone.Some?)))
    ensures var rest := if gone.Some? then RemoveEntry(s.entries, gone.value.key) else s.entries;
      m == Left(Leased(s, l).(entries := rest), l, unlock)
  {
    var lock := P.DeleteLock(t, l.owner, l.queue, id, s.now);
    var start := Within(Leased(s, l), t, P.Deleting(l, id, P.AboutToTake));
    One(s, lock, start);
    var take;
    take, m := TakeFromQueue(Leased(s, l), t, l, id, gone, unlock);
    Join(s, [lock], start, take, Within(m, t, P.Erasing(id, gone.Some?)));
    acts := [lock] + take;
  }

  /** A delete that leaves the queue alone is at most one write. */
  lemma {:induction false} PlainDeleteRun(s: P.State, id: TrainingId, ok: bool, status: Status)
    returns (acts: seq<P.Action>)
    requires id in s.docs
    ensures Leads(s, acts, AfterErase(s, id, ok, status))
  {
    if !ok { return []; }
    One(s, P.SoftDelete(id, status), AfterErase(s, id, ok, status));
    acts := [P.SoftDelete(id, status)];
  }

  lemma {:induction false} DeleteWorld(w: World, id: TrainingId, userID: string, q: QueueName, a: DeleteAnswers,
                                       job: TrainingRecord)
    requires WorldOk(w) && Get(w, id, userID, a.get) == Success(job)
    ensures var w', view := Delete(w, id, userID, q, a).0, View(w.docs, w.nextDoc);
      && Consistent(w'.docs, w'.nextDoc) && id in view
      && View(w'.docs, w'.nextDoc)
         == (if a.find && a.upsert then view[id := P.Doc(StatusOf(job), true, "", [])] else view)
      && w'.deployed == w.deployed && w'.nextEntry == w.nextEntry
      && w'.entries == DropEntry(w.entries, q, id, StatusOf(job) == QUEUED && a.lock && a.queueFind && a.queueRemove)
  {
    ViewAt(w.docs, w.nextDoc, job);
    DeleteIsOneWrite(w.docs, w.nextDoc, id);
  }

  lemma {:induction false} DeleteRun(w: World, id: TrainingId, userID: string, q: QueueName, a: DeleteAnswers,
                                     s: P.State, t: P.ThreadId, owner: TrainerId)
    returns (acts: seq<P.Action>, s': P.State)
    requires WorldOk(w) && Shows(s, w) && t !in s.threads && (a.lock ==> Free(s.leases, q))
    ensures Leads(s, acts, s') && Shows(s', Delete(w, id, userID, q, a).0)
    ensures Undisturbed(s, s', !a.lock || a.unlock) && s'.home == s.home
    ensures StrandsFew(s, s', if a.find && a.upsert then {} else {id})
  {
    var got := Get(w, id, userID, a.get);
    if got.Failure? { return [], s; }
    DeleteWorld(w, id, userID, q, a, got.value);
    if StatusOf(got.value) == QUEUED && a.lock {
      acts, s' := LockedDeleteRun(w, Delete(w, id, userID, q, a).0, id, q, a, s, t, owner);
    } else {
      acts := PlainDeleteRun(s, id, a.find && a.upsert, StatusOf(got.value));
      s' := AfterErase(s, id, a.find && a.upsert, StatusOf(got.value));
    }
  }

  lemma {:induction false} LockedDeleteRun(w: World, w': World, id: TrainingId, q: QueueName, a: DeleteAnswers,
                                           s: P.State, t: P.ThreadId, owner: TrainerId)
    returns (acts: seq<P.Action>, s': P.State)
    requires Shows(s, w) && t !in s.threads && Free(s.leases, q) && id in s.docs
    requires Consistent(w'.docs, w'.nextDoc) && w'.deployed == w.deployed && w'.nextEntry == w.nextEntry
    requires View(w'.docs, w'.nextDoc) == AfterErase(s, id, a.find && a.upsert, QUEUED).docs
    requires w'.entries == DropEntry(w.entries, q, id, a.queueFind && a.queueRemove)
    ensures Leads(s, acts, s') && Shows(s', w') && Undisturbed(s, s', a.unlock) && s'.home == s.home
    ensures StrandsFew(s, s', if a.find && a.upsert then {} else {id})
  {
    var gone := EntryGone(w.entries, q, id, a.queueFind && a.queueRemove);
    acts, s' := QueuedDeleteRun(s, t, owner, q, id, gone, a.unlock, a.find && a.upsert, QUEUED);
  }

  lemma {:induction false} EntryGone(entries: seq<Entry>, q: QueueName, id: TrainingId, up: bool)
    returns (gone: Option<Entry>)
    ensures gone.Some? ==> gone.value in entries && gone.value.queue == q && gone.value.id == id
    ensures DropEntry(entries, q, id, up) == if gone.Some? then RemoveEntry(entries, gone.value.key) else entries
  {
    gone := if up then EntryOf(entries, q, id) else None;
  }

  /** Main result: a delete is a run of the protocol. */
  lemma {:induction false} DeleteRefinesProtocol(w: World, id: TrainingId, userID: string, q: QueueName,
                                                 a: DeleteAnswers, s: P.State, t: P.ThreadId, owner: TrainerId)
    returns (ss: seq<P.State>, acts: seq<P.Action>)
    requires WorldOk(w) && Shows(s, w) && t !in s.threads && Free(s.leases, q)
    ensures P.Behaviour(ss, acts) && AtMostOnce.FencedRun(ss, acts) && ss[0] == s
    ensures var s' := P.Last(ss);
      Shows(s', Delete(w, id, userID, q, a).0) && Undisturbed(s, s', !a.lock || a.unlock) && s'.home == s.home
  {
    var s';
    acts, s' := DeleteRun(w, id, userID, q, a, s, t, owner);
    ss := LeadsIsBehaviour(s, acts, s');
  }

  // ---- creates ----

  /** The state once the create has checked the size. */
  function Checked(s: P.State, q: QueueName, id: TrainingId): P.State {
    s.(home := s.home[id := P.Birth(q, s.births)], births := s.births + 1)
  }

  lemma {:induction false} EnqueueRun(s: P.State, t: P.ThreadId, q: QueueName, id: TrainingId, doc: P.Doc, stamp: nat,
                                      enqueue: bool, store: bool)
    returns (acts: seq<P.Action>, s': P.State)
    requires t !in s.threads
    ensures Leads(Within(s, t, P.Creating(q, id, doc, P.ToEnqueue)), acts, s')
    ensures Undisturbed(s, s', true) && s'.home == s.home && s'.deployed == s.deployed && s'.stranded == s.stranded
    ensures s'.nextKey == s.nextKey + if enqueue then 1 else 0
    ensures s'.docs == if store then s.docs[id := if enqueue then doc else doc.(status := FAILED)] else s.docs
    ensures s'.entries == if enqueue then s.entries + [Entry(s.nextKey, q, id, stamp)] else s.entries
  {
    if enqueue {
      acts, s' := InsertRun(s, t, q, id, doc, stamp, store);
    } else {
      var start, fail := Within(s, t, P.Creating(q, id, doc, P.ToEnqueue)), P.Create(t, P.EnqueueFails(store));
      assert start.threads - {t} == s.threads;
      s' := P.Apply(start, fail);
      One(start, fail, s');
      acts := [fail];
    }
  }

  lemma {:induction false} InsertRun(s: P.State, t: P.ThreadId, q: QueueName, id: TrainingId, doc: P.Doc, stamp: nat,
                                     store: bool)
    returns (acts: seq<P.Action>, s': P.State)
    requires t !in s.threads
    ensures Leads(Within(s, t, P.Creating(q, id, doc, P.ToEnqueue)), acts, s')
    ensures s' == P.Insert(s, q, id, stamp).(docs := if store then s.docs[id := doc] else s.docs)
  {
    var start := Within(s, t, P.Creating(q, id, doc, P.ToEnqueue));
    var insert, finish := P.Create(t, P.Enqueue(stamp)), P.Create(t, if store then P.StoreQueued else P.StoreFails);
    var m := Within(P.Insert(s, q, id, stamp), t, P.Creating(q, id, doc, P.ToStore));
    assert start.threads[t := P.Creating(q, id, doc, P.ToStore)] == m.threads;
    One(start, insert, m);
    assert m.threads - {t} == s.threads;
    s' := P.Apply(m, finish);
    One(m, finish, s');
    Join(start, [insert], m, [finish], s');
    acts := [insert] + [finish];
  }

  lemma {:induction false} SubmitRun(s: P.State, t: P.ThreadId, q: QueueName, id: TrainingId, doc: P.Doc, store: bool,
                                     client: bool)
    returns (acts: seq<P.Action>, s': P.State)
    requires t !in s.threads
    ensures Leads(Within(s, t, P.Creating(q, id, doc, P.ToSubmit)), acts, s')
    ensures Undisturbed(s, s', true) && s'.home == s.home && s'.entries == s.entries && s'.nextKey == s.nextKey
    ensures s'.stranded == s.stranded
    ensures s'.docs == if store then s.docs[id := doc.(status := PENDING)] else s.docs
    ensures s'.deployed == if store && client then s.deployed + [id] else s.deployed
  {
    var start := Within(s, t, P.Creating(q, id, doc, P.ToSubmit));
    assert start.threads - {t} == s.threads;
    if !store {
      One(start, P.Create(t, P.Abandon), s);
      return [P.Create(t, P.Abandon)], s;
    }
    var submit, finish := P.Create(t, P.SubmitPending), P.Create(t, if client then P.SubmitDeploy else P.Abandon);
    var m := Within(Submitted(s, id, doc), t, P.Creating(q, id, doc, P.ToDeploy));
    assert start.threads[t := P.Creating(q, id, doc, P.ToDeploy)] == m.threads;
    One(start, submit, m);
    assert m.threads - {t} == s.threads;
    s' := P.Apply(m, finish);
    One(m, finish, s');
    Join(start, [submit], m, [finish], s');
    acts := [submit] + [finish];
  }

  /** The records a create can store look to the protocol like the new record with another status. */
  lemma {:induction false} NewDocs(w: World, r: TrainingRecord)
    requires WorldOk(w) && NewRecord(r) && forall d | d in w.docs :: d.trainingID != r.trainingID
    ensures var doc := DocOf(r); doc.status == QUEUED && !doc.deleted && P.Resolves(doc)
    ensures DocOf(Failed(r)) == DocOf(r).(status := FAILED) && DocOf(Pending(r)) == DocOf(r).(status := PENDING)
  {
    var store := FindDatastore(r.training.value.inputData[0], r.datastores).value;
    var i :| 0 <= i < |r.datastores| && r.datastores[i] == store;
    assert DocOf(r).stores[i] == r.training.value.inputData[0];
  }

  lemma {:induction false} EnqueuedView(w: World, r: TrainingRecord, q: QueueName, a: CreateAnswers)
    requires WorldOk(w) && NewRecord(r) && forall d | d in w.docs :: d.trainingID != r.trainingID
    ensures var w', view := Enqueue(w, r, q, a).0, View(w.docs, w.nextDoc);
      && Consistent(w'.docs, w'.nextDoc) && w'.nextEntry == w.nextEntry + (if a.enqueue then 1 else 0)
      && View(w'.docs, w'.nextDoc)
         == (if a.store then view[r.trainingID := DocOf(if a.enqueue then r else Failed(r))] else view)
  {
    EnqueueDocs(w, r, q, a);
    InsertIsOneWrite(w.docs, w.nextDoc, if a.enqueue then r else Failed(r));
  }

  lemma {:induction false} SubmittedView(w: World, r: TrainingRecord, a: SubmitAnswers)
    requires WorldOk(w) && NewRecord(r) && forall d | d in w.docs :: d.trainingID != r.trainingID
    ensures var w', view := Submit(w, r, a).0, View(w.docs, w.nextDoc);
      && Consistent(w'.docs, w'.nextDoc) && w'.nextEntry == w.nextEntry
      && View(w'.docs, w'.nextDoc) == (if a.config && a.store then view[r.trainingID := DocOf(Pending(r))] else view)
  {
    SubmitNewDocs(w, r, a);
    InsertIsOneWrite(w.docs, w.nextDoc, Pending(r));
  }

  /** CreateCheck lets a request through exactly if the size limit does. */
  lemma {:induction false} CheckStep(s: P.State, t: P.ThreadId, q: QueueName, id: TrainingId, doc: P.Doc, size: bool)
    requires t !in s.threads && id !in s.home && doc.status == QUEUED && !doc.deleted && P.Resolves(doc)
    requires !(s.limit > 0 && P.SizeRead(s, q, size) >= s.limit)
    ensures var step := if P.SizeRead(s, q, size) == 0 then P.ToSubmit else P.ToEnqueue;
      Leads(s, [P.CreateCheck(t, q, id, doc, size)], Within(Checked(s, q, id), t, P.Creating(q, id, doc, step)))
  {
  }

  /** A create that the size limit lets through, by way of the queue or straight to LCM. */
  lemma {:induction false} LetInRun(w: World, r: TrainingRecord, q: QueueName, a: CreateAnswers, s: P.State,
                                    t: P.ThreadId, queued: bool)
    returns (acts: seq<P.Action>, s': P.State)
    requires WorldOk(w) && NewRecord(r) && !Known(w, r.trainingID) && t !in s.threads
    requires Shows(s, w)
    ensures var step := if queued then P.ToEnqueue else P.ToSubmit;
      Leads(Within(s, t, P.Creating(q, r.trainingID, DocOf(r), step)), acts, s')
    ensures Undisturbed(s, s', true) && s'.home == s.home && s'.stranded == s.stranded
    ensures Shows(s', if queued then Enqueue(w, r, q, a).0 else Submit(w, r, a.submit).0)
  {
    NewDocs(w, r);
    if queued {
      EnqueuedView(w, r, q, a);
      acts, s' := EnqueueRun(s, t, q, r.trainingID, DocOf(r), w.now, a.enqueue, a.store);
    } else {
      SubmittedView(w, r, a.submit);
      acts, s' := SubmitRun(s, t, q, r.trainingID, DocOf(r), a.submit.config && a.submit.store, a.submit.client);
    }
  }

  /** The size check and the rest of a create that it lets through. */
  lemma {:induction false} CheckedRun(w: World, r: TrainingRecord, q: QueueName, a: CreateAnswers, s: P.State,
                                      t: P.ThreadId)
    returns (acts: seq<P.Action>, s': P.State)
    requires WorldOk(w) && NewRecord(r) && !Known(w, r.trainingID) && Shows(s, w)
    requires t !in s.threads && r.trainingID !in s.home
    requires !(s.limit > 0 && P.SizeRead(s, q, a.size) >= s.limit)
    ensures Leads(s, acts, s') && Undisturbed(s, s', true) && s'.stranded == s.stranded
    ensures s'.home == s.home[r.trainingID := P.Birth(q, s.births)]
    ensures Shows(s', if P.SizeRead(s, q, a.size) != 0 then Enqueue(w, r, q, a).0 else Submit(w, r, a.submit).0)
  {
    var id, size := r.trainingID, P.SizeRead(s, q, a.size);
    NewDocs(w, r);
    CheckStep(s, t, q, id, DocOf(r), a.size);
    var m := Checked(s, q, id);
    var start := Within(m, t, P.Creating(q, id, DocOf(r), if size == 0 then P.ToSubmit else P.ToEnqueue));
    var rest;
    rest, s' := LetInRun(w, r, q, a, m, t, size != 0);
    var check := [P.CreateCheck(t, q, id, DocOf(r), a.size)];
    Join(s, check, start, rest, s');
    acts := check + rest;
  }

  /** A create turned away changes nothing; one let in differs from its run only in the gauge. */
  lemma {:induction false} CreateShown(w: World, r: TrainingRecord, q: QueueName, limit: int, a: CreateAnswers,
                                       s: P.State, s': P.State)
    requires NewRecord(r) && s.entries == w.entries && s.limit == if limit < 0 then 0 else limit
    ensures var full := s.limit > 0 && P.SizeRead(s, q, a.size) >= s.limit;
      && (full ==> Create(w, r, q, limit, a).0 == w)
      && (!full && Shows(s', if P.SizeRead(s, q, a.size) != 0 then Enqueue(w, r, q, a).0 else Submit(w, r, a.submit).0)
          ==> Shows(s', Create(w, r, q, limit, a).0))
  {
  }

  lemma {:induction false} CreateRun(w: World, r: TrainingRecord, q: QueueName, limit: int, a: CreateAnswers,
                                     s: P.State, t: P.ThreadId)
    returns (acts: seq<P.Action>, s': P.State)
    requires WorldOk(w) && NewRecord(r) && !Known(w, r.trainingID) && Shows(s, w)
    requires t !in s.threads && r.trainingID !in s.home && s.limit == if limit < 0 then 0 else limit
    ensures Leads(s, acts, s') && Shows(s', Create(w, r, q, limit, a).0)
    ensures Undisturbed(s, s', true) && s'.stranded == s.stranded
    ensures s' == s || s'.home == s.home[r.trainingID := P.Birth(q, s.births)]
  {
    if s.limit > 0 && P.SizeRead(s, q, a.size) >= s.limit {
      CreateShown(w, r, q, limit, a, s, s);
      return [], s;
    }
    acts, s' := CheckedRun(w, r, q, a, s, t);
    CreateShown(w, r, q, limit, a, s, s');
  }

  /** Main result: a create is a run of the protocol. */
  lemma {:induction false} CreateRefinesProtocol(w: World, r: TrainingRecord, q: QueueName, limit: int,
                                                 a: CreateAnswers, s: P.State, t: P.ThreadId)
    returns (ss: seq<P.State>, acts: seq<P.Action>)
    requires WorldOk(w) && NewRecord(r) && !Known(w, r.trainingID) && Shows(s, w)
    requires t !in s.threads && r.trainingID !in s.home && s.limit == if limit < 0 then 0 else limit
    ensures P.Behaviour(ss, acts) && AtMostOnce.FencedRun(ss, acts) && ss[0] == s
    ensures Shows(P.Last(ss), Create(w, r, q, limit, a).0) && Undisturbed(s, P.Last(ss), true)
  {
    var s';
    acts, s' := CreateRun(w, r, q, limit, a, s, t);
    ss := LeadsIsBehaviour(s, acts, s');
  }
}
