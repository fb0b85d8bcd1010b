// What runs of the trainer's requests guarantee about records, soft deletes, erasure and status history.
module TrainerResults {
  import opened Wrappers
  import opened JobStatus
  import opened Entries
  import opened Records
  import opened Repository
  import opened TrainerOps
  import opened TrainerRuns
  import opened JobQueue
  import opened PullTicks

  // ---- documents are conserved; soft deletes are absorbing ----

  /** A record and what it has become: the same training and document, and untouched once deleted. */
  predicate Succeeds(d: TrainingRecord, d': TrainingRecord) {
    d'.trainingID == d.trainingID && d'.docId == d.docId && (d.deleted ==> d' == d)
  }

  lemma {:induction false} StepConserves(w: World, op: Op)
    requires WorldOk(w) && CanApply(w, op)
    ensures var w' := ApplyOp(w, op);
      |w.docs| <= |w'.docs| && forall i | 0 <= i < |w.docs| :: Succeeds(w.docs[i], w'.docs[i])
  {
    DocsAfter(w, op);
  }

  /** Main result: over any run every document stays where it is and keeps its training, each training has exactly one
      document, and a soft-deleted document never changes again. */
  lemma {:induction false} DocumentsConserved(ws: seq<World>, ops: seq<Op>)
    requires Run(ws, ops)
    ensures WorldOk(End(ws)) && |ws[0].docs| <= |End(ws).docs|
    ensures forall i | 0 <= i < |ws[0].docs| :: Succeeds(ws[0].docs[i], End(ws).docs[i])
    decreases |ops|
  {
    if ops != [] {
      var n := |ops| - 1;
      ShorterRun(ws, ops);
      DocumentsConserved(ws[..|ops|], ops[..n]);
      StepConserves(ws[n], ops[n]);
      StepOk(ws[n], ops[n]);
    }
  }

  predicate Deleted(w: World, id: TrainingId) {
    exists d | d in w.docs :: d.trainingID == id && d.deleted
  }

  lemma {:induction false} DeletedStays(w: World, op: Op, id: TrainingId)
    requires WorldOk(w) && CanApply(w, op) && Deleted(w, id)
    ensures Deleted(ApplyOp(w, op), id)
  {
    StepConserves(w, op);
    var d :| d in w.docs && d.trainingID == id && d.deleted;
    var i :| 0 <= i < |w.docs| && w.docs[i] == d;
    assert ApplyOp(w, op).docs[i] == d;
  }

  lemma {:induction false} DeletedNotFound(w: World, id: TrainingId)
    requires WorldOk(w) && Deleted(w, id)
    ensures FindDoc(w.docs, id).None?
  {
  }

  /** Every request about a deleted training fails and changes nothing. */
  lemma {:induction false} DeletedRequestsFail(w: World, id: TrainingId, req: UpdateRequest, userID: string,
                                               q: QueueName, now: string, up: bool, kill: KillAnswer,
                                               ua: UpdateAnswers, da: DeleteAnswers)
    requires WorldOk(w) && Deleted(w, id) && req.id == id
    ensures Get(w, id, userID, up).Failure? && (up ==> Get(w, id, userID, up) == Failure(Error.NotFound))
    ensures Update(w, req, now, ua).0 == w && Update(w, req, now, ua).1.Failure?
    ensures Halt(w, id, userID, up, kill, now, ua).0 == w && Halt(w, id, userID, up, kill, now, ua).1.Failure?
    ensures Delete(w, id, userID, q, da).0 == w && Delete(w, id, userID, q, da).1.Failure?
  {
  }

  /** The training a round or a create sends to LCM. */
  function SentBy(w: World, op: Op): seq<TrainingId>
    requires WorldOk(w) && CanApply(w, op)
  {
    if op.CreateOp? && ChangeOf(w, op).Append? && StatusOf(ChangeOf(w, op).added) == PENDING && op.ca.submit.client
    then [op.r.trainingID]
    else if op.RoundOp? && ChangeOf(w, op).Rewrite? && op.ra.submit.client then [ChangeOf(w, op).to.trainingID]
    else []
  }

  lemma {:induction false} RoundSends(w: World, op: Op)
    requires WorldOk(w) && op.RoundOp?
    ensures ApplyOp(w, op).deployed == w.deployed + SentBy(w, op)
    ensures SentBy(w, op) != [] ==> WaitsInQueue(w.docs, SentBy(w, op)[0])
  {
    if Picked(w, op.q, op.ra).Some? { FoundAt(w.docs, w.nextDoc, Jobs(w.entries, op.q)[0].id); }
  }

  lemma {:induction false} CreateSends(w: World, op: Op)
    requires WorldOk(w) && op.CreateOp? && CanApply(w, op)
    ensures ApplyOp(w, op).deployed == w.deployed + SentBy(w, op)
  {
    CreateDeploys(w, op.r, op.q, op.limit, op.ca);
  }

  /** A create sends its job to LCM if the queue is empty, or cannot be counted, and PENDING has been stored. */
  lemma {:induction false} CreateDeploys(w: World, r: TrainingRecord, q: QueueName, limit: int, a: CreateAnswers)
    requires NewRecord(r)
    ensures var c := CreateChange(w, r, q, limit, a);
      var sent := c.Append? && StatusOf(c.added) == PENDING && a.submit.client;
      Create(w, r, q, limit, a).0.deployed == w.deployed + if sent then [r.trainingID] else []
  {
  }

  /** Only a create, and a round that sees a visible QUEUED record, send a training to LCM. */
  lemma {:induction false} StepSends(w: World, op: Op)
    requires WorldOk(w) && CanApply(w, op)
    ensures ApplyOp(w, op).deployed == w.deployed + SentBy(w, op)
    ensures SentBy(w, op) != [] ==>
      (op.CreateOp? && SentBy(w, op)[0] == op.r.trainingID) || WaitsInQueue(w.docs, SentBy(w, op)[0])
  {
    if op.CreateOp? { CreateSends(w, op); }
    if op.RoundOp? { RoundSends(w, op); }
  }

  function Occurrences(ids: seq<TrainingId>, id: TrainingId): nat {
    multiset(ids)[id]
  }

  lemma {:induction false} DeletedNotSent(w: World, op: Op, id: TrainingId)
    requires WorldOk(w) && CanApply(w, op) && Deleted(w, id)
    ensures Occurrences(ApplyOp(w, op).deployed, id) == Occurrences(w.deployed, id)
  {
    StepSends(w, op);
    DeletedNotFound(w, id);
    assert op.CreateOp? ==> op.r.trainingID != id;
    assert id !in SentBy(w, op);
  }

  /** Main result: a deleted training stays deleted and invisible, and is never sent to LCM again, stale queue entries
      notwithstanding. */
  lemma {:induction false} DeletedForever(ws: seq<World>, ops: seq<Op>, id: TrainingId)
    requires Run(ws, ops) && Deleted(ws[0], id)
    ensures WorldOk(End(ws)) && Deleted(End(ws), id) && FindDoc(End(ws).docs, id).None?
    ensures Occurrences(End(ws).deployed, id) == Occurrences(ws[0].deployed, id)
    decreases |ops|
  {
    if ops != [] {
      var n := |ops| - 1;
      ShorterRun(ws, ops);
      DeletedForever(ws[..|ops|], ops[..n], id);
      DeletedStays(ws[n], ops[n], id);
      DeletedNotSent(ws[n], ops[n], id);
      StepOk(ws[n], ops[n]);
    }
    DeletedNotFound(End(ws), id);
  }

  /** So every request about it fails and changes nothing, at any later time. */
  lemma {:induction false} DeletedRequestsFailForever(ws: seq<World>, ops: seq<Op>, id: TrainingId, req: UpdateRequest,
      userID: string, q: QueueName, now: string, up: bool, kill: KillAnswer, ua: UpdateAnswers, da: DeleteAnswers)
    requires Run(ws, ops) && Deleted(ws[0], id) && req.id == id
    ensures WorldOk(End(ws))
    ensures var w := End(ws);
      && Get(w, id, userID, up).Failure? && (up ==> Get(w, id, userID, up) == Failure(Error.NotFound))
      && Update(w, req, now, ua).0 == w && Update(w, req, now, ua).1.Failure?
      && Halt(w, id, userID, up, kill, now, ua).0 == w && Halt(w, id, userID, up, kill, now, ua).1.Failure?
      && Delete(w, id, userID, q, da).0 == w && Delete(w, id, userID, q, da).1.Failure?
  {
    DeletedForever(ws, ops, id);
    DeletedRequestsFail(End(ws), id, req, userID, q, now, up, kill, ua, da);
  }

  // ---- a job whose deployment failed ----

  /** The training has a record, and it is not QUEUED. */
  predicate NoLongerQueued(w: World, id: TrainingId) {
    (exists d | d in w.docs :: d.trainingID == id) && !WaitsInQueue(w.docs, id)
  }

  lemma {:induction false} RewritesAreNotQueued(w: World, op: Op)
    requires WorldOk(w) && CanApply(w, op) && ChangeOf(w, op).Rewrite?
    ensures !IsQueued(ChangeOf(w, op).to)
  {
    if op.RoundOp? { RoundDocsAt(w, op.q, op.ra); }
  }

  lemma {:induction false} RecordStays(w: World, op: Op, id: TrainingId)
    requires WorldOk(w) && CanApply(w, op) && exists d | d in w.docs :: d.trainingID == id
    ensures exists d | d in ApplyOp(w, op).docs :: d.trainingID == id
  {
    StepConserves(w, op);
    var i :| 0 <= i < |w.docs| && w.docs[i].trainingID == id;
    assert ApplyOp(w, op).docs[i] in ApplyOp(w, op).docs;
  }

  lemma {:induction false} AppendWaiting(docs: seq<TrainingRecord>, nextDoc: nat, d: TrainingRecord, id: TrainingId)
    requires Consistent(docs, nextDoc) && d.trainingID != id && WaitsInQueue(docs + [d], id)
    ensures WaitsInQueue(docs, id)
  {
  }

  lemma {:induction false} WaitedBefore(w: World, op: Op, id: TrainingId)
    requires WorldOk(w) && CanApply(w, op) && (exists d | d in w.docs :: d.trainingID == id)
    requires WaitsInQueue(ApplyOp(w, op).docs, id)
    ensures WaitsInQueue(w.docs, id)
  {
    DocsAfter(w, op);
    StoredOk(w, op);
    StepOk(w, op);
    match ChangeOf(w, op)
    case Same =>
    case Rewrite(k, to) =>
      RewritesAreNotQueued(w, op);
      ReplaceKeepsConsistent(w.docs, w.nextDoc, k, to);
      RewriteWaiting(w.docs, w.nextDoc, k, to, id);
    case Append(d) => AppendWaiting(w.docs, w.nextDoc, d, id);
  }

  lemma {:induction false} NoLongerQueuedStays(w: World, op: Op, id: TrainingId)
    requires WorldOk(w) && CanApply(w, op) && NoLongerQueued(w, id)
    ensures NoLongerQueued(ApplyOp(w, op), id)
    ensures Occurrences(ApplyOp(w, op).deployed, id) == Occurrences(w.deployed, id)
  {
    RecordStays(w, op, id);
    if WaitsInQueue(ApplyOp(w, op).docs, id) { WaitedBefore(w, op, id); }
    StepSends(w, op);
    assert id !in SentBy(w, op);
  }

  /** A training that is not QUEUED is never QUEUED again, and not sent to LCM any more. */
  lemma {:induction false} NoLongerQueuedForever(ws: seq<World>, ops: seq<Op>, id: TrainingId)
    requires Run(ws, ops) && NoLongerQueued(ws[0], id)
    ensures NoLongerQueued(End(ws), id) && Occurrences(End(ws).deployed, id) == Occurrences(ws[0].deployed, id)
    decreases |ops|
  {
    if ops != [] {
      var n := |ops| - 1;
      ShorterRun(ws, ops);
      NoLongerQueuedForever(ws[..|ops|], ops[..n], id);
      NoLongerQueuedStays(ws[n], ops[n], id);
    }
  }

  /** Main result: a job that a round has stored as PENDING and failed to deploy is PENDING after that round, and over
      any run of requests from there it is never QUEUED and never sent to LCM again. */
  lemma {:induction false} FailedDeployNeverRetried(w: World, q: QueueName, a: RoundAnswers, ws: seq<World>,
                                                   ops: seq<Op>)
    requires WorldOk(w) && Takes(w, q, a) && !(a.submit.client && a.submit.deploy)
    requires Run(ws, ops) && ws[0] == Round(w, q, a).0
    ensures Jobs(w.entries, q) != [] && WorldOk(ws[0])
    ensures var id := Jobs(w.entries, q)[0].id;
      && FindDoc(ws[0].docs, id).Some? && StatusOf(FindDoc(ws[0].docs, id).value) == PENDING
      && ws[0].entries == w.entries
      && !WaitsInQueue(End(ws).docs, id) && Occurrences(End(ws).deployed, id) == Occurrences(ws[0].deployed, id)
  {
    RoundLeavesPending(w, q, a);
    NoLongerQueuedForever(ws, ops, Jobs(w.entries, q)[0].id);
  }

  // ---- stale entries ----

  /** A stale entry at the head of a queue is removed by the round that finds it there, and nothing is sent. */
  lemma {:induction false} StaleHeadRemoved(w: World, q: QueueName, a: RoundAnswers)
    requires WorldOk(w) && Jobs(w.entries, q) != []
    requires a.lock && a.size && a.peek && a.find && a.queueFind && a.queueRemove
    requires var id := Jobs(w.entries, q)[0].id;
      id != "" && (FindDoc(w.docs, id).None? || StatusOf(FindDoc(w.docs, id).value) != QUEUED)
    ensures Round(w, q, a) == (w.(entries := RemoveEntry(w.entries, Jobs(w.entries, q)[0].key)), false)
  {
  }

  predicate AllUp(a: RoundAnswers) {
    a.lock && a.size && a.peek && a.find && a.queueFind && a.queueRemove
  }

  /** The first `n` jobs of the queue have no QUEUED record. */
  predicate StaleFront(docs: seq<TrainingRecord>, jobs: seq<Entry>, n: nat) {
    n <= |jobs| && forall i | 0 <= i < n :: jobs[i].id != "" && !WaitsInQueue(docs, jobs[i].id)
  }

  /** Main result: stale entries at the front of a queue, however many, are removed one by one as pulls find them at the
      head; nothing else happens. */
  lemma {:induction false} StaleEntriesDrain(w: World, q: QueueName, rounds: seq<RoundAnswers>) returns (end: World)
    requires WorldOk(w) && InOrder(w.entries) && StaleFront(w.docs, Jobs(w.entries, q), |rounds|)
    requires forall a | a in rounds :: AllUp(a)
    ensures end == Pull(w, q, rounds) && end == w.(entries := end.entries)
    ensures Jobs(end.entries, q) == Jobs(w.entries, q)[|rounds|..]
    decreases |rounds|
  {
    if rounds == [] { return w; }
    var jobs := Jobs(w.entries, q);
    var mid := StaleHeadLeaves(w, q, rounds[0]);
    PullFirst(w, q, rounds, mid);
    FrontShrinks(w.docs, jobs, |rounds|);
    end := StaleEntriesDrain(mid, q, rounds[1..]);
    assert jobs[1..][|rounds| - 1..] == jobs[|rounds|..];
  }

  lemma {:induction false} FrontShrinks(docs: seq<TrainingRecord>, jobs: seq<Entry>, n: nat)
    requires n > 0 && StaleFront(docs, jobs, n)
    ensures StaleFront(docs, jobs[1..], n - 1)
  {
  }

  lemma {:induction false} StaleHeadLeaves(w: World, q: QueueName, a: RoundAnswers) returns (mid: World)
    requires WorldOk(w) && InOrder(w.entries) && Jobs(w.entries, q) != [] && AllUp(a)
    requires Jobs(w.entries, q)[0].id != "" && !WaitsInQueue(w.docs, Jobs(w.entries, q)[0].id)
    ensures Round(w, q, a).0 == mid && mid == w.(entries := mid.entries)
    ensures InOrder(mid.entries) && Jobs(mid.entries, q) == Jobs(w.entries, q)[1..]
  {
    var head := Jobs(w.entries, q)[0];
    StaleHeadRemoved(w, q, a);
    mid := w.(entries := RemoveEntry(w.entries, head.key));
    DequeueEffect(w.entries, q);
    JobsRemove(w.entries, head.key, q);
    RemoveInOrder(w.entries, head.key);
  }

  lemma {:induction false} PullFirst(w: World, q: QueueName, rounds: seq<RoundAnswers>, mid: World)
    requires WorldOk(w) && WorldOk(mid) && rounds != [] && Round(w, q, rounds[0]).0 == mid
    ensures Pull(w, q, rounds) == Pull(mid, q, rounds[1..])
  {
  }

  // ---- terminal erasure ----

  /** Neither data stores nor image location are left. */
  predicate Erased(d: TrainingRecord) {
    && d.datastores == []
    && (d.model.Some? && d.model.value.framework.Some? ==> d.model.value.framework.value.imageLocation == None)
  }

  lemma {:induction false} StepKeepsErased(w: World, op: Op, i: nat)
    requires WorldOk(w) && CanApply(w, op) && i < |w.docs| && Erased(w.docs[i])
    ensures i < |ApplyOp(w, op).docs| && Erased(ApplyOp(w, op).docs[i])
  {
    DocsAfter(w, op);
    var c := ChangeOf(w, op);
    if c.Rewrite? && c.k == i {
      if op.RoundOp? { RoundsTakeUnerased(w, op); } else { RewrittenStaysErased(w, op); }
    }
  }

  lemma {:induction false} RewrittenStaysErased(w: World, op: Op)
    requires WorldOk(w) && CanApply(w, op) && ChangeOf(w, op).Rewrite? && Fits(w.docs, ChangeOf(w, op)) && !op.RoundOp?
    requires Erased(w.docs[ChangeOf(w, op).k])
    ensures Erased(ChangeOf(w, op).to)
  {
    match op {
      case UpdateOp(req, _, _) => FoundAt(w.docs, w.nextDoc, req.id);
      case HaltOp(hid, _, _, _, _, _) => FoundAt(w.docs, w.nextDoc, hid);
      case DeleteOp(did, _, _, _) => FoundAt(w.docs, w.nextDoc, did);
      case _ =>
    }
  }

  /** A QUEUED record still has the data store of its input. */
  lemma {:induction false} RoundsTakeUnerased(w: World, op: Op)
    requires WorldOk(w) && op.RoundOp? && ChangeOf(w, op).Rewrite? && Fits(w.docs, ChangeOf(w, op))
    ensures !Erased(w.docs[ChangeOf(w, op).k])
  {
  }

  /** An update to COMPLETED, FAILED or HALTED, or a halt, that stores its record. */
  predicate StoresTerminal(w: World, op: Op)
    requires WorldOk(w) && CanApply(w, op)
  {
    ((op.UpdateOp? && Terminal(op.req.status)) || op.HaltOp?) && ChangeOf(w, op).Rewrite?
  }

  lemma {:induction false} TerminalErases(w: World, op: Op)
    requires WorldOk(w) && CanApply(w, op) && StoresTerminal(w, op)
    ensures Erased(ChangeOf(w, op).to)
  {
  }

  /** A soft delete takes the data stores away, but the image location only if an update had taken it before. */
  lemma {:induction false} DeleteErasesIff(w: World, op: Op)
    requires WorldOk(w) && op.DeleteOp? && ChangeOf(w, op).Rewrite?
    ensures FindDoc(w.docs, op.id).Some?
    ensures var d, d' := FindDoc(w.docs, op.id).value, ChangeOf(w, op).to;
      d'.datastores == [] && (Erased(d') <==> d.model.value.framework.value.imageLocation == None)
  {
  }

  lemma {:induction false} LaterRun(ws: seq<World>, ops: seq<Op>)
    requires Run(ws, ops) && ops != []
    ensures Run(ws[1..], ops[1..]) && End(ws[1..]) == End(ws)
  {
    StepOk(ws[0], ops[0]);
    var ws', ops' := ws[1..], ops[1..];
    forall i | 0 <= i < |ops'|
      ensures WorldOk(ws'[i]) && CanApply(ws'[i], ops'[i]) && ws'[i + 1] == ApplyOp(ws'[i], ops'[i])
    {
      assert ws'[i] == ws[i + 1] && ops'[i] == ops[i + 1] && ws'[i + 1] == ws[i + 1 + 1];
    }
  }

  /** Main result: once an update to COMPLETED, FAILED or HALTED has stored its record, the record holds neither data
      stores nor image location in any later state, through further updates and soft delete. */
  lemma {:induction false} TerminalErasurePersists(ws: seq<World>, ops: seq<Op>)
    requires Run(ws, ops) && ops != [] && StoresTerminal(ws[0], ops[0])
    ensures forall d | d in End(ws).docs && d.trainingID == ChangeOf(ws[0], ops[0]).to.trainingID :: Erased(d)
  {
    var c := ChangeOf(ws[0], ops[0]);
    DocsAfter(ws[0], ops[0]);
    TerminalErases(ws[0], ops[0]);
    LaterRun(ws, ops);
    ErasedStays(ws[1..], ops[1..], c.k);
    DocumentsConserved(ws[1..], ops[1..]);
    assert Succeeds(ws[1].docs[c.k], End(ws).docs[c.k]) && ws[1].docs[c.k] == c.to;
    forall d | d in End(ws).docs && d.trainingID == c.to.trainingID ensures Erased(d) {
      assert End(ws).docs[c.k] in End(ws).docs;
      SameDoc(End(ws).docs, End(ws).nextDoc, d, End(ws).docs[c.k]);
    }
  }

  lemma {:induction false} ErasedStays(ws: seq<World>, ops: seq<Op>, i: nat)
    requires Run(ws, ops) && i < |ws[0].docs| && Erased(ws[0].docs[i])
    ensures i < |End(ws).docs| && Erased(End(ws).docs[i])
    decreases |ops|
  {
    if ops != [] {
      var n := |ops| - 1;
      ShorterRun(ws, ops);
      ErasedStays(ws[..|ops|], ops[..n], i);
      StepKeepsErased(ws[n], ops[n], i);
    }
  }

  // ---- history ----

  /** The statuses whose arrival the history must show. */
  predicate NeedsEntry(s: Status) {
    s in {HALTED, DEPLOY, DOWNLOADING, PROCESSING, STORING, COMPLETED}
  }

  predicate InHistory(history: seq<HistoryEntry>, id: TrainingId, s: Status) {
    exists h | h in history :: h.trainingID == id && h.status == s
  }

  ghost predicate HistoryComplete(w: World) {
    forall d | d in w.docs && Complete(d) && !d.deleted && NeedsEntry(StatusOf(d)) ::
      InHistory(w.history, d.trainingID, StatusOf(d))
  }

  /** The update that a request amounts to. */
  function Requested(op: Op): UpdateRequest
    requires op.UpdateOp? || op.HaltOp?
  {
    if op.UpdateOp? then op.req else HaltRequest(op.id, op.userID)
  }

  /** The request stores a status whose arrival the history does not show, and then fails to read the record back or to
      write the history. */
  predicate Unrecorded(w: World, op: Op)
    requires WorldOk(w) && CanApply(w, op)
  {
    (op.UpdateOp? || op.HaltOp?) && ChangeOf(w, op).Rewrite?
    && var req := Requested(op);
       NeedsEntry(req.status) && !InHistory(w.history, req.id, req.status) && !(op.ua.verify && op.ua.history)
  }

  lemma {:induction false} HistoryGrows(w: World, op: Op)
    requires WorldOk(w) && CanApply(w, op)
    ensures w.history <= ApplyOp(w, op).history
  {
    match op
    case UpdateOp(req, now, ua) => UpdateHistoryGrows(w, req, now, ua);
    case HaltOp(id, userID, _, _, now, ua) => UpdateHistoryGrows(w, HaltRequest(id, userID), now, ua);
    case RoundOp(q, ra) => RoundHistoryGrows(w, q, ra);
    case CreateOp(r, q, limit, ca) => CreateKeepsHistory(w, r, q, limit, ca);
    case _ =>
  }

  lemma {:induction false} RoundHistoryGrows(w: World, q: QueueName, a: RoundAnswers)
    requires WorldOk(w)
    ensures w.history <= Round(w, q, a).0.history
  {
  }

  lemma {:induction false} CreateKeepsHistory(w: World, r: TrainingRecord, q: QueueName, limit: int, a: CreateAnswers)
    requires NewRecord(r)
    ensures Create(w, r, q, limit, a).0.history == w.history
  {
  }

  lemma {:induction false} UpdateHistoryGrows(w: World, req: UpdateRequest, now: string, ua: UpdateAnswers)
    requires WorldOk(w)
    ensures w.history <= Update(w, req, now, ua).0.history
  {
  }

  lemma {:induction false} RecordShows(history: seq<HistoryEntry>, e: HistoryEntry)
    requires e.status != NOT_STARTED
    ensures InHistory(Record(history, e), e.trainingID, e.status)
  {
  }

  lemma {:induction false} UpdateWritesHistory(w: World, req: UpdateRequest, now: string, ua: UpdateAnswers)
    requires WorldOk(w) && UpdateChange(w, req, now, ua).Rewrite? && ua.verify
    ensures Update(w, req, now, ua).0.history
      == HistoryAfter(w, req, StatusOf(FindDoc(w.docs, req.id).value), now, ua.history)
  {
    ReadBack(w, req, now);
  }

  /** The record just stored is found again. */
  lemma {:induction false} ReadBack(w: World, req: UpdateRequest, now: string)
    requires WorldOk(w) && FindDoc(w.docs, req.id).Some?
    ensures var stored := StoreDoc(w.docs, w.nextDoc, Updated(FindDoc(w.docs, req.id).value, req, now));
      stored.Some? && FindDoc(stored.value, req.id).Some?
  {
    var k, r := IndexOf(w.docs, req.id), Updated(FindDoc(w.docs, req.id).value, req, now);
    FoundAt(w.docs, w.nextDoc, req.id);
    assert w.docs[k := r][k] == r && r in w.docs[k := r];
  }

  lemma {:induction false} UpdateShows(w: World, req: UpdateRequest, now: string, ua: UpdateAnswers)
    requires WorldOk(w) && HistoryComplete(w) && req.status != QUEUED && ua.verify && ua.history
    requires UpdateChange(w, req, now, ua).Rewrite? && NeedsEntry(req.status)
    ensures InHistory(Update(w, req, now, ua).0.history, req.id, req.status)
  {
    var tr := FindDoc(w.docs, req.id).value;
    UpdateWritesHistory(w, req, now, ua);
    var e := HistoryEntry(req.id, Stamp(req.timestamp, now), req.status, req.message, req.errorCode);
    RecordShows(w.history, e);
    if req.status == StatusOf(tr) { assert InHistory(w.history, req.id, req.status); }
  }

  lemma {:induction false} StepHistoryComplete(w: World, op: Op)
    requires WorldOk(w) && CanApply(w, op) && HistoryComplete(w) && !Unrecorded(w, op)
    ensures HistoryComplete(ApplyOp(w, op))
  {
    var w' := ApplyOp(w, op);
    HistoryGrows(w, op);
    forall d | d in w'.docs && Complete(d) && !d.deleted && NeedsEntry(StatusOf(d))
      ensures InHistory(w'.history, d.trainingID, StatusOf(d))
    {
      if d in w.docs {
        StaysInHistory(w.history, w'.history, d.trainingID, StatusOf(d));
      } else {
        StoredStatus(w, op, d);
      }
    }
  }

  lemma {:induction false} StaysInHistory(history: seq<HistoryEntry>, longer: seq<HistoryEntry>, id: TrainingId,
                                          s: Status)
    requires history <= longer && InHistory(history, id, s)
    ensures InHistory(longer, id, s)
  {
    var h :| h in history && h.trainingID == id && h.status == s;
    var i :| 0 <= i < |history| && history[i] == h;
    assert longer[i] == h;
  }

  lemma {:induction false} StoredStatus(w: World, op: Op, d: TrainingRecord)
    requires WorldOk(w) && CanApply(w, op) && HistoryComplete(w) && !Unrecorded(w, op)
    requires d in ApplyOp(w, op).docs && d !in w.docs && Complete(d) && !d.deleted && NeedsEntry(StatusOf(d))
    ensures InHistory(ApplyOp(w, op).history, d.trainingID, StatusOf(d))
  {
    DocsAfter(w, op);
    var c := ChangeOf(w, op);
    assert c.Rewrite? ==> d == c.to;
    if op.UpdateOp? || op.HaltOp? {
      StoredByUpdate(w, op);
      HistoryGrows(w, op);
      if op.ua.verify && op.ua.history {
        UpdateOpShows(w, op);
      } else {
        StaysInHistory(w.history, ApplyOp(w, op).history, Requested(op).id, Requested(op).status);
      }
    } else {
      OthersNeedNoEntry(w, op);
    }
  }

  /** What an update or a halt stores is a live record of its job with its status. */
  lemma {:induction false} StoredByUpdate(w: World, op: Op)
    requires WorldOk(w) && CanApply(w, op) && (op.UpdateOp? || op.HaltOp?) && ChangeOf(w, op).Rewrite?
    ensures var d := ChangeOf(w, op).to;
      Complete(d) && !d.deleted && d.trainingID == Requested(op).id && StatusOf(d) == Requested(op).status
  {
  }

  lemma {:induction false} UpdateOpShows(w: World, op: Op)
    requires WorldOk(w) && CanApply(w, op) && HistoryComplete(w) && (op.UpdateOp? || op.HaltOp?)
    requires ChangeOf(w, op).Rewrite?
    requires NeedsEntry(Requested(op).status) && op.ua.verify && op.ua.history
    ensures InHistory(ApplyOp(w, op).history, Requested(op).id, Requested(op).status)
  {
    match op
    case UpdateOp(req, now, ua) => UpdateShows(w, req, now, ua);
    case HaltOp(id, userID, _, _, now, ua) => UpdateShows(w, HaltRequest(id, userID), now, ua);
    case _ =>
  }

  lemma {:induction false} UnrecordedKeepsHistory(w: World, req: UpdateRequest, now: string, ua: UpdateAnswers)
    requires WorldOk(w) && !(ua.verify && ua.history)
    ensures Update(w, req, now, ua).0.history == w.history
  {
  }

  lemma {:induction false} UnrecordedLeavesGap(w: World, op: Op)
    requires WorldOk(w) && CanApply(w, op) && Unrecorded(w, op)
    ensures !HistoryComplete(ApplyOp(w, op))
  {
    var w', c := ApplyOp(w, op), ChangeOf(w, op);
    DocsAfter(w, op);
    StoredByUpdate(w, op);
    assert w'.docs[c.k] == c.to;
    match op
    case UpdateOp(req, now, ua) => UnrecordedKeepsHistory(w, req, now, ua);
    case HaltOp(id, userID, _, _, now, ua) => UnrecordedKeepsHistory(w, HaltRequest(id, userID), now, ua);
    case _ =>
  }

  /** A request breaks the history's completeness exactly if it is unrecorded. */
  lemma {:induction false} HistoryCompleteIff(w: World, op: Op)
    requires WorldOk(w) && CanApply(w, op) && HistoryComplete(w)
    ensures HistoryComplete(ApplyOp(w, op)) <==> !Unrecorded(w, op)
  {
    if Unrecorded(w, op) { UnrecordedLeavesGap(w, op); } else { StepHistoryComplete(w, op); }
  }

  /** Such a gap is not closed by a later update with the same status, other than PROCESSING. */
  lemma {:induction false} SameStatusWritesNothing(w: World, req: UpdateRequest, now: string, ua: UpdateAnswers)
    requires WorldOk(w) && FindDoc(w.docs, req.id).Some?
    requires StatusOf(FindDoc(w.docs, req.id).value) == req.status != PROCESSING
    ensures Update(w, req, now, ua).0.history == w.history
  {
  }

  /** Creates and pulls store QUEUED, PENDING or FAILED; a delete leaves a deleted record. */
  lemma {:induction false} OthersNeedNoEntry(w: World, op: Op)
    requires WorldOk(w) && CanApply(w, op) && !op.UpdateOp? && !op.HaltOp?
    ensures var c := ChangeOf(w, op);
      && (c.Rewrite? ==> c.to.deleted || (Complete(c.to) && !NeedsEntry(StatusOf(c.to))))
      && (c.Append? ==> Complete(c.added) && !NeedsEntry(StatusOf(c.added)))
  {
  }

  ghost predicate AllRecorded(ws: seq<World>, ops: seq<Op>)
    requires Run(ws, ops)
  {
    forall i | 0 <= i < |ops| :: !Unrecorded(ws[i], ops[i])
  }

  lemma {:induction false} ShorterRecorded(ws: seq<World>, ops: seq<Op>)
    requires Run(ws, ops) && AllRecorded(ws, ops) && ops != [] && Run(ws[..|ops|], ops[..|ops| - 1])
    ensures AllRecorded(ws[..|ops|], ops[..|ops| - 1])
  {
    var n, ws', ops' := |ops| - 1, ws[..|ops|], ops[..|ops| - 1];
    forall i | 0 <= i < n ensures !Unrecorded(ws'[i], ops'[i]) { assert !Unrecorded(ws[i], ops[i]); }
  }

  /** Main result: as long as no request is unrecorded, a live record in a status other than the initial ones and FAILED
      has a history entry with its id and that status. */
  lemma {:induction false} HistoryIsComplete(ws: seq<World>, ops: seq<Op>)
    requires Run(ws, ops) && HistoryComplete(ws[0]) && AllRecorded(ws, ops)
    ensures HistoryComplete(End(ws)) && ws[0].history <= End(ws).history
    decreases |ops|
  {
    if ops != [] {
      var n := |ops| - 1;
      ShorterRun(ws, ops);
      ShorterRecorded(ws, ops);
      HistoryIsComplete(ws[..|ops|], ops[..n]);
      StepHistoryComplete(ws[n], ops[n]);
      HistoryGrows(ws[n], ops[n]);
    }
  }

  // ---- halting what has ended ----

  predicate Ended(w: World, id: TrainingId)
    requires WorldOk(w)
  {
    FindDoc(w.docs, id).Some? && Terminal(StatusOf(FindDoc(w.docs, id).value))
  }

  /** A halt of `id`, by the halt request or by an update that carries HALTED. */
  predicate Halts(op: Op, id: TrainingId) {
    (op.HaltOp? && op.id == id) || (op.UpdateOp? && op.req.id == id && op.req.status == HALTED)
  }

  /** Whatever the halts of an ended job, its record, the history and the usage gauge stay as they are. */
  lemma {:induction false} HaltsOfEndedJobChangeNothing(ws: seq<World>, ops: seq<Op>, id: TrainingId)
    requires Run(ws, ops) && Ended(ws[0], id) && forall op | op in ops :: Halts(op, id)
    ensures End(ws) == ws[0]
    decreases |ops|
  {
    if ops != [] {
      var n := |ops| - 1;
      ShorterRun(ws, ops);
      assert Halts(ops[n], id);
      forall op | op in ops[..n] ensures Halts(op, id) { assert op in ops; }
      HaltsOfEndedJobChangeNothing(ws[..|ops|], ops[..n], id);
    }
  }

  /** A halt of an ended job answers HALTED, whatever the job has ended in. */
  lemma {:induction false} HaltOfEndedJobSaysHalted(w: World, id: TrainingId, userID: string, kill: KillAnswer,
                                                    now: string, ua: UpdateAnswers)
    requires WorldOk(w) && Ended(w, id) && FindDoc(w.docs, id).value.userID == userID && ua.find && !kill.KillFailed?
    ensures Halt(w, id, userID, true, kill, now, ua)
      == (w, Success(HaltResponse(FindDoc(w.docs, id).value.jobID, userID, HALTED)))
  {
  }
}
