// Every run of the trainer's requests is matched by one behaviour of the protocol, and so inherits its guarantees.
module RefinedRuns {
  import opened Sequences
  import opened JobStatus
  import opened Entries
  import opened Records
  import opened Repository
  import opened JobQueue
  import opened TrainerOps
  import opened TrainerRuns
  import opened PullTicks
  import opened Refinement
  import NoLoss

  // ---- where runs start ----

  /** A persisted database: entries in order, one per job, every QUEUED job queued, every job sent so far sent once and
      QUEUED no more. */
  ghost predicate Started(w: World) {
    && WorldOk(w) && EntriesValid(w.entries, w.nextEntry, w.now)
    && (forall e, f | e in w.entries && f in w.entries && e.id == f.id :: e == f)
    && (forall id | WaitsInQueue(w.docs, id) :: exists e | e in w.entries :: e.id == id)
    && (forall i, j | 0 <= i < j < |w.deployed| :: w.deployed[i] != w.deployed[j])
    && (forall id | id in w.deployed :: !WaitsInQueue(w.docs, id) && exists d | d in w.docs :: d.trainingID == id)
  }

  /** The ids handed out so far, each with the queue of its entry. */
  ghost function Homes(w: World): map<TrainingId, P.Birth>
    requires WorldOk(w)
  {
    map id | id in View(w.docs, w.nextDoc).Keys + (set e | e in w.entries :: e.id) ::
      P.Birth(var e := FirstWithId(w.entries, id); if e.Some? then e.value.queue else "ANY", 0)
  }

  /** The protocol's view of a database nobody is working on. */
  ghost function StateOf(w: World, limit: nat): P.State
    requires WorldOk(w)
  {
    P.State(limit, w.now, w.nextEntry, 0, 1, w.entries, {}, View(w.docs, w.nextDoc), map[], Homes(w),
            (set id | id in w.deployed), w.deployed, {})
  }

  lemma {:induction false} RecordResolves(r: TrainingRecord)
    requires Submittable(r)
    ensures P.Resolves(DocOf(r))
  {
    var store := FindDatastore(r.training.value.inputData[0], r.datastores).value;
    var i :| 0 <= i < |r.datastores| && r.datastores[i] == store;
    assert DocOf(r).stores[i] == r.training.value.inputData[0];
  }

  lemma {:induction false} WaitingIsQueued(w: World, id: TrainingId)
    requires WorldOk(w)
    ensures P.LiveQueued(View(w.docs, w.nextDoc), id) <==> WaitsInQueue(w.docs, id)
    ensures P.LiveQueued(View(w.docs, w.nextDoc), id) ==> P.Resolves(View(w.docs, w.nextDoc)[id])
  {
    FindSeesLiveQueued(w.docs, w.nextDoc, id);
    if WaitsInQueue(w.docs, id) {
      var d := FindDoc(w.docs, id).value;
      ViewAt(w.docs, w.nextDoc, d);
      RecordResolves(d);
    }
  }

  lemma {:induction false} HomesOfEntries(w: World, e: Entry)
    requires Started(w) && e in w.entries
    ensures e.id in Homes(w) && Homes(w)[e.id].queue == e.queue
  {
    assert FirstWithId(w.entries, e.id).Some?;
  }

  lemma {:induction false} StateOfIsInitial(w: World, limit: nat)
    requires Started(w)
    ensures P.Init(StateOf(w, limit)) && Rest(StateOf(w, limit), w)
  {
    var s := StateOf(w, limit);
    forall id ensures P.LiveQueued(s.docs, id) <==> WaitsInQueue(w.docs, id) { WaitingIsQueued(w, id); }
    forall id | P.LiveQueued(s.docs, id) ensures P.Resolves(s.docs[id]) { WaitingIsQueued(w, id); }
    forall e | e in s.entries ensures e.id in s.home && s.home[e.id].queue == e.queue { HomesOfEntries(w, e); }
    forall e, f | e in s.entries && f in s.entries && e.key == f.key ensures e == f { KeysDistinct(w.entries, e, f); }
    forall id | id in s.deployed ensures id in s.docs {
      var d :| d in w.docs && d.trainingID == id;
      ViewAt(w.docs, w.nextDoc, d);
    }
  }

  // ---- one request ----

  /** Nobody is at work, and leases left behind run out. */
  ghost predicate Rest(s: P.State, w: World) {
    && Shows(s, w) && s.threads == map[]
    && (forall l | l in s.leases :: l.expires <= s.now + LOCK_EXPIRATION)
    && (forall e | e in s.entries :: e.id in s.home)
    && (forall id | id in s.docs :: id in s.home)
  }

  /** Before a Lock can succeed, a lease left behind has run out and been purged. */
  lemma {:induction false} Clear(s: P.State, w: World, q: QueueName) returns (acts: seq<P.Action>, m: P.State)
    requires Rest(s, w)
    ensures Leads(s, acts, m) && Rest(m, w) && Free(m.leases, q) && m == s.(now := m.now, leases := m.leases)
  {
    var later := s.(now := s.now + LOCK_EXPIRATION + 1);
    m := later.(leases := Purge(later.leases, q, later.now));
    One(s, P.Tick(LOCK_EXPIRATION + 1), later);
    One(later, P.PurgeExpired(q), m);
    Join(s, [P.Tick(LOCK_EXPIRATION + 1)], later, [P.PurgeExpired(q)], m);
    acts := [P.Tick(LOCK_EXPIRATION + 1)] + [P.PurgeExpired(q)];
  }

  /** The id a request hands out. */
  function HandedOut(op: Op): set<TrainingId> {
    if op.CreateOp? then {op.r.trainingID} else {}
  }

  /** The job whose deletion failed. */
  function DeleteFailed(op: Op): set<TrainingId> {
    if op.DeleteOp? && !(op.da.find && op.da.upsert) then {op.id} else {}
  }

  /** The create is one this protocol state lets start. */
  predicate CanHandOut(s: P.State, op: Op) {
    op.CreateOp? ==> op.r.trainingID !in s.home && s.limit == if op.limit < 0 then 0 else op.limit
  }

  /** What a request changes besides the database. */
  ghost predicate Kept(s: P.State, s': P.State, op: Op) {
    && s'.limit == s.limit && s.home.Keys <= s'.home.Keys <= s.home.Keys + HandedOut(op)
    && StrandsFew(s, s', DeleteFailed(op))
  }

  lemma {:induction false} OpRun(w: World, op: Op, s: P.State) returns (acts: seq<P.Action>, s': P.State)
    requires WorldOk(w) && CanApply(w, op) && InOrder(w.entries) && Rest(s, w) && CanHandOut(s, op)
    ensures Leads(s, acts, s') && Rest(s', ApplyOp(w, op)) && Kept(s, s', op)
  {
    match op
    case UpdateOp(req, now, ua) => acts, s' := UpdateOpRun(w, req, now, ua, s);
    case HaltOp(_, _, _, _, _, _) => acts, s' := HaltRun(w, op, s);
    case DeleteOp(_, _, q, _) => acts, s' := LockingRun(w, op, q, s);
    case RoundOp(q, _) => acts, s' := LockingRun(w, op, q, s);
    case CreateOp(_, _, _, _) => acts, s' := CreateOpRun(w, op, s);
    case WaitOp(_) => acts, s' := [], s;
  }

  lemma {:induction false} UpdateOpRun(w: World, req: UpdateRequest, now: string, ua: UpdateAnswers, s: P.State)
    returns (acts: seq<P.Action>, s': P.State)
    requires WorldOk(w) && req.status != QUEUED && Rest(s, w)
    ensures Leads(s, acts, s') && Rest(s', Update(w, req, now, ua).0) && s' == s.(docs := s'.docs)
  {
    acts, s' := UpdateRun(w, req, now, ua, s);
  }

  lemma {:induction false} HaltRun(w: World, op: Op, s: P.State) returns (acts: seq<P.Action>, s': P.State)
    requires WorldOk(w) && op.HaltOp? && Rest(s, w)
    ensures Leads(s, acts, s') && Rest(s', ApplyOp(w, op)) && Kept(s, s', op)
  {
    if Get(w, op.id, op.userID, op.getUp).Success? && !op.kill.KillFailed? {
      acts, s' := UpdateOpRun(w, HaltRequest(op.id, op.userID), op.now, op.ua, s);
    } else {
      acts, s' := [], s;
    }
  }

  lemma {:induction false} CreateOpRun(w: World, op: Op, s: P.State) returns (acts: seq<P.Action>, s': P.State)
    requires WorldOk(w) && op.CreateOp? && CanApply(w, op) && Rest(s, w) && CanHandOut(s, op)
    ensures Leads(s, acts, s') && Rest(s', ApplyOp(w, op)) && Kept(s, s', op)
  {
    acts, s' := CreateRun(w, op.r, op.q, op.limit, op.ca, s, 0);
    CreatedAtHome(w, op, s, s');
  }

  lemma {:induction false} CreatedAtHome(w: World, op: Op, s: P.State, s': P.State)
    requires WorldOk(w) && op.CreateOp? && CanApply(w, op) && Rest(s, w) && Shows(s', ApplyOp(w, op))
    requires s' == s || s'.home == s.home[op.r.trainingID := P.Birth(op.q, s.births)]
    ensures (forall e | e in s'.entries :: e.id in s'.home) && forall id | id in s'.docs :: id in s'.home
  {
    CreateEntries(w, op);
    RecordsOf(w, op);
  }

  /** A delete or a round of pulling. */
  lemma {:induction false} LockingRun(w: World, op: Op, q: QueueName, s: P.State)
    returns (acts: seq<P.Action>, s': P.State)
    requires WorldOk(w) && InOrder(w.entries) && Rest(s, w)
    requires (op.DeleteOp? && op.q == q) || (op.RoundOp? && op.q == q)
    ensures Leads(s, acts, s') && Rest(s', ApplyOp(w, op)) && Kept(s, s', op)
  {
    var clear, m := Clear(s, w, q);
    var more;
    if op.DeleteOp? {
      more, s' := DeleteRun(w, op.id, op.userID, q, op.da, m, 0, "trainer");
    } else {
      more, s' := RoundRun(w, q, op.ra, m, 0, "trainer");
    }
    EntriesOnlyLeave(w, op);
    RecordsOf(w, op);
    Join(s, clear, m, more, s');
    acts := clear + more;
  }

  lemma {:induction false} EntriesOnlyLeave(w: World, op: Op)
    requires WorldOk(w) && (op.DeleteOp? || op.RoundOp?)
    ensures forall e | e in ApplyOp(w, op).entries :: e in w.entries
  {
    if op.RoundOp? { var gone := RoundRemoves(w, op.q, op.ra); }
  }

  // ---- entries stay in order ----

  lemma {:induction false} RemovalValid(entries: seq<Entry>, key: nat, nextKey: nat, now: nat)
    requires EntriesValid(entries, nextKey, now)
    ensures EntriesValid(RemoveEntry(entries, key), nextKey, now)
  {
    RemoveInOrder(entries, key);
  }

  lemma {:induction false} CreateEntries(w: World, op: Op)
    requires op.CreateOp? && NewRecord(op.r)
    ensures var w' := Create(w, op.r, op.q, op.limit, op.ca).0;
      && w'.now == w.now
      && ((w'.entries == w.entries && w'.nextEntry == w.nextEntry)
          || (w'.entries == w.entries + [Entry(w.nextEntry, op.q, op.r.trainingID, w.now)]
              && w'.nextEntry == w.nextEntry + 1))
  {
  }

  lemma {:induction false} StepEntriesValid(w: World, op: Op)
    requires WorldOk(w) && CanApply(w, op) && EntriesValid(w.entries, w.nextEntry, w.now)
    ensures var w' := ApplyOp(w, op); EntriesValid(w'.entries, w'.nextEntry, w'.now)
  {
    match op
    case UpdateOp(req, now, ua) => UpdateSends(w, req, now, ua);
    case HaltOp(id, userID, _, _, now, ua) => UpdateSends(w, HaltRequest(id, userID), now, ua);
    case DeleteOp(id, userID, q, da) => DeleteEntries(w, op);
    case RoundOp(q, ra) => RoundEntriesValid(w, op);
    case CreateOp(_, q, _, _) =>
      CreateEntries(w, op);
      AppendInOrder(w.entries, Entry(w.nextEntry, q, op.r.trainingID, w.now));
    case WaitOp(_) =>
  }

  lemma {:induction false} DeleteEntries(w: World, op: Op)
    requires WorldOk(w) && op.DeleteOp? && EntriesValid(w.entries, w.nextEntry, w.now)
    ensures var w' := ApplyOp(w, op); EntriesValid(w'.entries, w'.nextEntry, w'.now)
  {
    var e := EntryOf(w.entries, op.q, op.id);
    if e.Some? { RemovalValid(w.entries, e.value.key, w.nextEntry, w.now); }
  }

  lemma {:induction false} RoundEntriesValid(w: World, op: Op)
    requires WorldOk(w) && op.RoundOp? && EntriesValid(w.entries, w.nextEntry, w.now)
    ensures var w' := ApplyOp(w, op); EntriesValid(w'.entries, w'.nextEntry, w'.now)
  {
    var gone := RoundRemoves(w, op.q, op.ra);
    RoundKeepsClock(w, op.q, op.ra);
    if gone.Some? { RemovalValid(w.entries, gone.value.key, w.nextEntry, w.now); }
  }

  lemma {:induction false} RoundKeepsClock(w: World, q: QueueName, a: RoundAnswers)
    requires WorldOk(w)
    ensures var w' := Round(w, q, a).0; w'.nextEntry == w.nextEntry && w'.now == w.now
  {
  }

  lemma {:induction false} RunEntriesValid(ws: seq<World>, ops: seq<Op>)
    requires Run(ws, ops) && EntriesValid(ws[0].entries, ws[0].nextEntry, ws[0].now)
    ensures EntriesValid(End(ws).entries, End(ws).nextEntry, End(ws).now)
    decreases |ops|
  {
    if ops != [] {
      ShorterRun(ws, ops);
      RunEntriesValid(ws[..|ops|], ops[..|ops| - 1]);
      StepEntriesValid(ws[|ops| - 1], ops[|ops| - 1]);
    }
  }

  // ---- whole runs ----

  /** No id is handed out twice, and every create reads the same limit. */
  ghost predicate FreshIds(ops: seq<Op>, known: set<TrainingId>, limit: nat) {
    && (forall i | 0 <= i < |ops| && ops[i].CreateOp? ::
          ops[i].r.trainingID !in known && limit == if ops[i].limit < 0 then 0 else ops[i].limit)
    && (forall i, j | 0 <= i < j < |ops| && ops[i].CreateOp? && ops[j].CreateOp? ::
         ops[i].r.trainingID != ops[j].r.trainingID)
  }

  ghost predicate FailsToDelete(ops: seq<Op>, id: TrainingId) {
    exists i | 0 <= i < |ops| :: id in DeleteFailed(ops[i])
  }

  /** Only ids of failed deletes and ids without a record are stranded. */
  ghost predicate StrandedOk(s: P.State, ops: seq<Op>) {
    forall id | id in s.stranded :: id in s.home && (id !in s.docs || FailsToDelete(ops, id))
  }

  ghost predicate HomeOk(s: P.State, s0: P.State, ops: seq<Op>) {
    forall id | id in s.home :: id in s0.home || exists i | 0 <= i < |ops| :: id in HandedOut(ops[i])
  }

  /** The records a request leaves are those there were, and that of the id it hands out. */
  lemma {:induction false} RecordsOf(w: World, op: Op)
    requires WorldOk(w) && CanApply(w, op)
    ensures WorldOk(ApplyOp(w, op))
    ensures View(ApplyOp(w, op).docs, ApplyOp(w, op).nextDoc).Keys <= View(w.docs, w.nextDoc).Keys + HandedOut(op)
  {
    StepOk(w, op);
    DocsAfter(w, op);
    StoredOk(w, op);
    KeysChange(w.docs, w.nextDoc, ChangeOf(w, op), ApplyOp(w, op).nextDoc, HandedOut(op));
  }

  lemma {:induction false} KeysChange(docs: seq<TrainingRecord>, nextDoc: nat, c: Change, nextDoc': nat,
                                      handed: set<TrainingId>)
    requires Consistent(docs, nextDoc) && Fits(docs, c) && Consistent(Changed(docs, c), nextDoc')
    requires c.Append? ==> c.added.trainingID in handed
    ensures View(Changed(docs, c), nextDoc').Keys <= View(docs, nextDoc).Keys + handed
  {
    var docs' := Changed(docs, c);
    forall id | id in View(docs', nextDoc') ensures id in View(docs, nextDoc).Keys + handed {
      var i :| 0 <= i < |docs'| && docs'[i].trainingID == id;
      if i < |docs| { ViewAt(docs, nextDoc, docs[i]); }
    }
  }

  lemma {:induction false} StrandedStaysOk(w: World, op: Op, s: P.State, s': P.State, ops: seq<Op>)
    requires WorldOk(w) && CanApply(w, op) && Rest(s, w) && Rest(s', ApplyOp(w, op)) && Kept(s, s', op)
    requires CanHandOut(s, op)
    requires StrandedOk(s, ops)
    ensures StrandedOk(s', ops + [op])
  {
    RecordsOf(w, op);
    var more := ops + [op];
    forall id | id in s'.stranded ensures id in s'.home && (id !in s'.docs || FailsToDelete(more, id)) {
      assert id in DeleteFailed(op) ==> more[|ops|] == op;
      if i :| 0 <= i < |ops| && id in DeleteFailed(ops[i]) { assert id in DeleteFailed(more[i]); }
    }
  }

  lemma {:induction false} HomeStaysOk(s: P.State, s': P.State, s0: P.State, ops: seq<Op>, op: Op)
    requires HomeOk(s, s0, ops) && Kept(s, s', op)
    ensures HomeOk(s', s0, ops + [op])
  {
    var more := ops + [op];
    forall id | id in s'.home ensures id in s0.home || exists i | 0 <= i < |more| :: id in HandedOut(more[i]) {
      if id !in s.home {
        assert id in HandedOut(more[|ops|]);
      } else if id !in s0.home {
        var i :| 0 <= i < |ops| && id in HandedOut(ops[i]);
        assert id in HandedOut(more[i]);
      }
    }
  }

  /** Main result: a run of the trainer's requests is matched by one run of the protocol, in which every store of
      PENDING is fenced. */
  lemma {:induction false} RunMatched(ws: seq<World>, ops: seq<Op>, limit: nat)
    returns (acts: seq<P.Action>, s: P.State)
    requires Run(ws, ops) && Started(ws[0]) && FreshIds(ops, Homes(ws[0]).Keys, limit)
    ensures var s0 := StateOf(ws[0], limit);
      && P.Init(s0) && Leads(s0, acts, s) && Rest(s, End(ws)) && s.limit == limit
      && HomeOk(s, s0, ops) && StrandedOk(s, ops)
    decreases |ops|
  {
    var s0 := StateOf(ws[0], limit);
    StateOfIsInitial(ws[0], limit);
    if ops == [] { return [], s0; }
    var n := |ops| - 1;
    ShorterRun(ws, ops);
    var before, m := RunMatched(ws[..|ops|], ops[..n], limit);
    RunEntriesValid(ws[..|ops|], ops[..n]);
    assert ops[..n] + [ops[n]] == ops && FreshIds(ops[..n] + [ops[n]], s0.home.Keys, limit);
    acts, s := RunExtended(ws[n], ops[n], s0, before, m, ops[..n]);
  }

  /** One request more. */
  lemma {:induction false} RunExtended(w: World, op: Op, s0: P.State, before: seq<P.Action>, m: P.State, ops: seq<Op>)
    returns (acts: seq<P.Action>, s: P.State)
    requires WorldOk(w) && CanApply(w, op) && InOrder(w.entries) && FreshIds(ops + [op], s0.home.Keys, m.limit)
    requires Leads(s0, before, m) && Rest(m, w) && HomeOk(m, s0, ops) && StrandedOk(m, ops)
    ensures Leads(s0, acts, s) && Rest(s, ApplyOp(w, op)) && s.limit == m.limit
    ensures HomeOk(s, s0, ops + [op]) && StrandedOk(s, ops + [op])
  {
    NewIdUnknown(op, s0, m, ops);
    var more;
    more, s := OpRun(w, op, m);
    Join(s0, before, m, more, s);
    acts := before + more;
    HomeStaysOk(m, s, s0, ops, op);
    StrandedStaysOk(w, op, m, s, ops);
  }

  lemma {:induction false} NewIdUnknown(op: Op, s0: P.State, m: P.State, ops: seq<Op>)
    requires FreshIds(ops + [op], s0.home.Keys, m.limit) && HomeOk(m, s0, ops)
    ensures CanHandOut(m, op)
  {
    var more := ops + [op];
    assert more[|ops|] == op && forall i | 0 <= i < |ops| :: more[i] == ops[i];
  }

  /** Main result: every run of the trainer's requests from a persisted database is shown by one behaviour of the
      protocol that starts in its initial state. */
  lemma {:induction false} RunRefinesProtocol(ws: seq<World>, ops: seq<Op>, limit: nat)
    returns (ss: seq<P.State>, acts: seq<P.Action>)
    requires Run(ws, ops) && Started(ws[0]) && FreshIds(ops, Homes(ws[0]).Keys, limit)
    ensures P.Behaviour(ss, acts) && P.Init(ss[0]) && AtMostOnce.FencedRun(ss, acts)
    ensures Shows(ss[0], ws[0]) && Shows(P.Last(ss), End(ws)) && P.Last(ss).threads == map[]
  {
    var s;
    acts, s := RunMatched(ws, ops, limit);
    StateOfIsInitial(ws[0], limit);
    ss := LeadsIsBehaviour(StateOf(ws[0], limit), acts, s);
  }

  /** So no run of requests sends a training to LCM twice. */
  lemma {:induction false} RunsDeployOnce(ws: seq<World>, ops: seq<Op>, limit: nat)
    requires Run(ws, ops) && Started(ws[0]) && FreshIds(ops, Homes(ws[0]).Keys, limit)
    ensures Distinct(End(ws).deployed)
  {
    var ss, acts := RunRefinesProtocol(ws, ops, limit);
    AtMostOnce.FencedDeploysOnce(ss, acts);
  }

  /** And a QUEUED job keeps its queue entry unless a delete of it failed. */
  lemma {:induction false} RunsKeepEntries(ws: seq<World>, ops: seq<Op>, limit: nat, id: TrainingId)
    requires Run(ws, ops) && Started(ws[0]) && FreshIds(ops, Homes(ws[0]).Keys, limit)
    requires WaitsInQueue(End(ws).docs, id) && !FailsToDelete(ops, id)
    ensures exists e | e in End(ws).entries :: e.id == id
  {
    var acts, s := RunMatched(ws, ops, limit);
    var ss := LeadsIsBehaviour(StateOf(ws[0], limit), acts, s);
    DocumentsOk(ws, ops);
    WaitingIsQueued(End(ws), id);
    NoLoss.NoQueuedJobLost(ss, acts, id);
  }

  lemma {:induction false} DocumentsOk(ws: seq<World>, ops: seq<Op>)
    requires Run(ws, ops)
    ensures WorldOk(End(ws))
  {
    if ops != [] {
      ShorterRun(ws, ops);
      StepOk(ws[|ops| - 1], ops[|ops| - 1]);
    }
  }
}
