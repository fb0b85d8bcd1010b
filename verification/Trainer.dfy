// trainerService: the request handlers and the goroutines that pull jobs, over a database updated in place.
// Each method is given the answers of the other services and is proved to do what TrainerOps says it does.
module Trainer {
  import opened Wrappers
  import opened JobStatus
  import opened Entries
  import opened Records
  import opened Repository
  import opened JobQueue
  import opened GpuLimits
  import opened TrainerOps
  import opened TrainerRuns
  import opened PullTicks
  import opened CreateRequests

  const RESOURCE_TYPES: seq<string> := ["nvidia-TeslaK80", "nvidia-TeslaP100", "nvidia-TeslaV100", "CPU"]

  /** The keys of the resource types that have a positive limit. */
  function LimitedTypes(limits: string, types: seq<string>): set<QueueName>
    requires forall t | t in types :: ScanSafe(limits, t)
  {
    set t | t in types && FirstLimit(limits, t) > 0 :: TransformResourceName(t)
  }

  /** With the limits an operator has set, each type once, a type has a queue exactly if its limit is positive. */
  lemma {:induction false} QueueIffLimited(limits: seq<Limit>, types: seq<string>, q: QueueName)
    requires limits != [] && DistinctLimits(limits)
    requires forall t | t in types :: ScanSafe(Join(WriteAll(limits), ','), t)
    ensures q in LimitedTypes(Join(WriteAll(limits), ','), types) <==>
      exists t | t in types :: TransformResourceName(t) == q && LimitFor(limits, t) > 0
  {
    forall t | t in types ensures FirstLimit(Join(WriteAll(limits), ','), t) == LimitFor(limits, t) {
      ReadersAgree(limits, t);
    }
  }

  method NewQueues(db: Database, limits: string, types: seq<string>, queueID: TrainerId)
    returns (queues: map<QueueName, TrainingJobQueue>)
    requires forall t | t in types :: ScanSafe(limits, t)
    ensures queues.Keys == {"ANY"} + LimitedTypes(limits, types)
    ensures forall q | q in queues :: queues[q].db == db && queues[q].collection == q
  {
    queues := map[];
    for i := 0 to |types|
      invariant queues.Keys == LimitedTypes(limits, types[..i])
      invariant forall q | q in queues :: queues[q].db == db && queues[q].collection == q
    {
      var t := types[i];
      assert t in types && types[..i + 1] == types[..i] + [t];
      var limit := GetGpuLimitByType(limits, t);
      if limit > 0 {
        var name := TransformResourceName(t);
        var queue := new TrainingJobQueue(db, name, queueID);
        queues := queues[name := queue];
      }
    }
    assert types[..|types|] == types;
    var anyQueue := new TrainingJobQueue(db, "ANY", queueID);
    queues := queues["ANY" := anyQueue];
  }

  /** What a delete does once it has found its job, at whatever time. */
  lemma {:induction false} DeleteEffect(w: World, id: TrainingId, userID: string, q: QueueName, a: DeleteAnswers,
                                        job: TrainingRecord, ok: bool, s: World)
    requires WorldOk(w) && Get(w, id, userID, a.get) == Success(job) && (ok <==> a.find && a.upsert)
    requires s.docs == if ok then SoftDelete(w.docs, w.nextDoc, id).value else w.docs
    requires s.entries == DropEntry(w.entries, q, id, StatusOf(job) == QUEUED && a.lock && a.queueFind && a.queueRemove)
    requires s == w.(docs := s.docs, entries := s.entries, now := s.now)
    ensures WorldOk(s) && s == AtTime(Delete(w, id, userID, q, a).0, s.now)
    ensures Delete(w, id, userID, q, a).1 == if ok then Success(job.jobID) else Failure(Unavailable)
  {
  }

  lemma {:induction false} CreateOk(w: World, r: TrainingRecord, q: QueueName, limit: int, a: CreateAnswers)
    requires WorldOk(w) && NewRecord(r) && !Known(w, r.trainingID)
    ensures WorldOk(Create(w, r, q, limit, a).0)
  {
    StepOk(w, CreateOp(r, q, limit, a));
  }

  class TrainerService {
    const db: Database
    const repo: TrainingsRepository
    const jobHistory: JobHistoryRepository
    const queues: map<QueueName, TrainingJobQueue>
    const queueSizeLimit: int
    const gpuAvailable: map<string, int>

    var usageGauge: map<GaugeKey, real>
    var deployed: seq<TrainingId>     // DeployTrainingJob calls
    var lockCalls: seq<LockEvent>     // successful Lock calls and the Unlock calls

    /** What requests and pulls read and change. */
    function Snapshot(): World
      reads this, repo, jobHistory, db
    {
      World(repo.docs, repo.nextKey, jobHistory.entries, db.entries, db.nextKey, db.now, usageGauge, deployed)
    }

    /** Each queue handler works on its own collection of the one database, and there is always an ANY queue. */
    predicate Linked()
      reads this, db
    {
      db.Valid() && "ANY" in queues && forall q | q in queues :: queues[q].db == db && queues[q].collection == q
    }

    predicate Valid()
      reads this, repo, jobHistory, db
    {
      Linked() && WorldOk(Snapshot())
    }

    /** There is a queue for each resource type with a positive limit, and the ANY queue. */
    constructor (db: Database, repo: TrainingsRepository, jobHistory: JobHistoryRepository,
                 limits: string, queueSizeLimit: int, queueID: TrainerId)
      requires db.Valid() && Consistent(repo.docs, repo.nextKey) && forall d | d in repo.docs :: RecordOk(d)
      requires MapSafe(limits) && AllParse(Split(limits, ',')) && forall t | t in RESOURCE_TYPES :: ScanSafe(limits, t)
      ensures Valid() && this.db == db && this.repo == repo && this.jobHistory == jobHistory && lockCalls == []
      ensures queues.Keys == {"ANY"} + LimitedTypes(limits, RESOURCE_TYPES)
      ensures gpuAvailable == MapOf(Split(limits, ','))
    {
      var queues := NewQueues(db, limits, RESOURCE_TYPES, queueID);
      var available := GetGpuMapFromConfig(limits);
      this.db, this.repo, this.jobHistory, this.queues := db, repo, jobHistory, queues;
      this.queueSizeLimit, this.gpuAvailable := queueSizeLimit, available.value;
      usageGauge, deployed, lockCalls := map[], [], [];
    }

    method GetTrainingJob(id: TrainingId, userID: string, up: bool) returns (r: Result<TrainingRecord, Error>)
      ensures r == Get(Snapshot(), id, userID, up)
    {
      var tr := repo.Find(id, up);
      if tr.Failure? { return Failure(if tr.error == RepoError.NotFound then Error.NotFound else Unavailable); }
      if tr.value.userID != userID { return Failure(PermissionDenied); }
      return Success(tr.value);
    }

    method UpdateTrainingJob(req: UpdateRequest, now: string, a: UpdateAnswers)
      returns (r: Result<Option<TrainingId>, Error>)
      requires Valid()
      modifies this`usageGauge, repo, jobHistory
      ensures Valid() <==> !old(Spoils(Snapshot(), req, a))
      ensures (Snapshot(), r) == Update(old(Snapshot()), req, now, a)
    {
      UpdateOkIff(Snapshot(), req, now, a);
      r := UpdateTrainingJobPostLock(req, now, a);
    }

    method UpdateTrainingJobPostLock(req: UpdateRequest, now: string, a: UpdateAnswers)
      returns (r: Result<Option<TrainingId>, Error>)
      requires WorldOk(Snapshot())
      modifies this`usageGauge, repo, jobHistory
      ensures (Snapshot(), r) == Update(old(Snapshot()), req, now, a)
    {
      var found := repo.Find(req.id, a.find);
      if found.Failure? { return Failure(if found.error == RepoError.NotFound then Error.NotFound else Unavailable); }
      var training := found.value;
      if training.userID != req.userID { return Failure(PermissionDenied); }
      var originalStatus := StatusOf(training);
      if Terminal(originalStatus) && req.status == HALTED { return Success(None); }

      training := UpdateRecord(training, req, now);
      assert KeyOf(req.userID, training) == KeyOf(req.userID, found.value);
      ReportUpdate(training, req);
      r := StoreUpdatedRecord(training, originalStatus, req, now, a);
    }

    /** The usage gauge loses the GPUs of a job that has ended. */
    method ReportUpdate(training: TrainingRecord, req: UpdateRequest)
      requires Complete(training)
      modifies this`usageGauge
      ensures usageGauge == GaugeAfter(old(Snapshot()), req, training)
    {
      if Terminal(req.status) {
        usageGauge := GaugeAdd(usageGauge, KeyOf(req.userID, training), -GpusUsed(ResourcesOf(training)));
      }
    }

    method StoreUpdatedRecord(training: TrainingRecord, originalStatus: Status, req: UpdateRequest, now: string,
                              a: UpdateAnswers)
      returns (r: Result<Option<TrainingId>, Error>)
      requires training.docId.Some?
      modifies repo, jobHistory
      ensures (Snapshot(), r) == StoreUpdate(old(Snapshot()), training, originalStatus, req, now, a)
    {
      var stored := repo.Store(training, a.store);
      if !stored { return Failure(Unavailable); }
      var again := repo.Find(req.id, a.verify);
      if again.Failure? { return Failure(Unavailable); }
      if req.status != originalStatus || req.status == PROCESSING {
        var e := HistoryEntry(req.id, Stamp(req.timestamp, now), req.status, req.message, req.errorCode);
        var _ := jobHistory.RecordJobStatus(e, a.history);
      }
      return Success(Some(again.value.trainingID));
    }

    /** The fields of the record an update sets. */
    method UpdateRecord(found: TrainingRecord, req: UpdateRequest, now: string) returns (training: TrainingRecord)
      requires Complete(found)
      ensures training == Updated(found, req, now)
    {
      training := found;
      var ts := training.status.value.(status := req.status, message := req.message, errorCode := req.errorCode);
      if Terminal(req.status) {
        ts := ts.(completion := Stamp(req.timestamp, now));
        var framework := training.model.value.framework.value.(imageLocation := None);
        training := training.(datastores := [], model := Some(ModelDefinition(Some(framework))));
      }
      if req.status == DOWNLOADING { ts := ts.(downloadStart := Stamp(req.timestamp, now)); }
      if req.status == PROCESSING { ts := ts.(processStart := Stamp(req.timestamp, now)); }
      if req.status == STORING { ts := ts.(storeStart := Stamp(req.timestamp, now)); }
      training := training.(status := Some(ts));
    }

    method HaltTrainingJob(id: TrainingId, userID: string, getUp: bool, kill: KillAnswer, now: string, a: UpdateAnswers)
      returns (r: Result<HaltResponse, Error>)
      requires Valid()
      modifies this`usageGauge, repo, jobHistory
      ensures Valid()
      ensures (Snapshot(), r) == Halt(old(Snapshot()), id, userID, getUp, kill, now, a)
    {
      var job := GetTrainingJob(id, userID, getUp);
      if job.Failure? { return Failure(job.error); }
      if kill == KillFailed { return Failure(Unavailable); }
      var updated := UpdateTrainingJob(HaltRequest(id, userID), now, a);
      if updated.Failure? { return Failure(updated.error); }
      return Success(HaltResponse(job.value.jobID, job.value.userID, HALTED));
    }

    /** No lease of this trainer is on the queue. */
    predicate LeaseFree(q: QueueName)
      requires q in queues
      reads this, db
    {
      forall l | l in db.leases && l.queue == q :: l.owner != queues[q].queueID
    }

    /** No lease on the queue outlasts one taken now; in a quiet database Lock then succeeds. */
    predicate LeasesRunOut(q: QueueName)
      reads db
    {
      forall l | l in db.leases && l.queue == q :: l.expires <= db.now + LOCK_EXPIRATION
    }

    /** Lock waits for the lease, so time passes. */
    method DeleteJobFromQueue(id: TrainingId, gpuType: string, a: DeleteAnswers, quiet: bool) returns (locked: bool)
      requires Linked()
      modifies this`lockCalls, db`entries, db`leases, db`nextLease, db`now
      ensures Linked()
      ensures var q := QueueKey(queues.Keys, gpuType);
        && db.entries == DropEntry(old(db.entries), q, id, locked && a.queueFind && a.queueRemove)
        && lockCalls == old(lockCalls) + LockPair(q, locked)
        && (locked && a.unlock ==> LeaseFree(q))
        && (quiet && old(LeasesRunOut(q)) ==> locked)
    {
      var q := QueueKey(queues.Keys, gpuType);
      var lease, _ := queues[q].Lock(quiet);
      if lease.Failure? { return false; }
      lockCalls := lockCalls + [Locked(q)];
      var _ := queues[q].Delete(id, a.queueFind, a.queueRemove);
      var _ := queues[q].Unlock(a.unlock);
      lockCalls := lockCalls + [Unlocked(q)];
      return true;
    }

    /** The queue a delete looks in. */
    function DeleteQueue(w: World, id: TrainingId, userID: string, up: bool): QueueName
      requires WorldOk(w)
    {
      var got := Get(w, id, userID, up);
      QueueKey(queues.Keys, if got.Success? then ResourcesOf(got.value).gpuType else "")
    }

    /** The answer to the request and whether the queue could be locked. */
    method DeleteTrainingJob(id: TrainingId, userID: string, a: DeleteAnswers, quiet: bool)
      returns (r: Result<string, Error>, locked: bool)
      requires Valid()
      modifies this`lockCalls, repo, db`entries, db`leases, db`nextLease, db`now
      ensures Valid()
      ensures var w := old(Snapshot());
        var (w', r') := Delete(w, id, userID, DeleteQueue(w, id, userID, a.get), a.(lock := locked));
        r == r' && Snapshot() == AtTime(w', db.now)
      ensures lockCalls == old(lockCalls) + LockPair(DeleteQueue(old(Snapshot()), id, userID, a.get), locked)
      ensures var w := old(Snapshot());
        var got := Get(w, id, userID, a.get);
        (quiet && got.Success? && StatusOf(got.value) == QUEUED
         && old(LeasesRunOut(DeleteQueue(Snapshot(), id, userID, a.get)))
         ==> locked)
    {
      ghost var w := Snapshot();
      var job := GetTrainingJob(id, userID, a.get);
      if job.Failure? { return Failure(job.error), false; }
      var ok;
      ok, locked := DeleteJob(job.value, a, quiet);
      DeleteEffect(w, id, userID, DeleteQueue(w, id, userID, a.get), a.(lock := locked), job.value, ok, Snapshot());
      r := if ok then Success(job.value.jobID) else Failure(Unavailable);
    }

    /** Takes the job out of its queue, if it is QUEUED, and deletes its record. */
    method DeleteJob(job: TrainingRecord, a: DeleteAnswers, quiet: bool) returns (ok: bool, locked: bool)
      requires Linked() && Complete(job) && FindDoc(repo.docs, job.trainingID).Some?
      modifies this`lockCalls, repo`docs, db`entries, db`leases, db`nextLease, db`now
      ensures Linked()
      ensures ok <==> a.find && a.upsert
      ensures repo.docs == if ok then SoftDelete(old(repo.docs), repo.nextKey, job.trainingID).value else old(repo.docs)
      ensures var q := QueueKey(queues.Keys, ResourcesOf(job).gpuType);
        && db.entries == DropEntry(old(db.entries), q, job.trainingID,
                                   StatusOf(job) == QUEUED && locked && a.queueFind && a.queueRemove)
        && lockCalls == old(lockCalls) + LockPair(q, locked)
        && (quiet && StatusOf(job) == QUEUED && old(LeasesRunOut(q)) ==> locked)
    {
      locked := false;
      if StatusOf(job) == QUEUED {
        locked := DeleteJobFromQueue(job.trainingID, ResourcesOf(job).gpuType, a, quiet);
      }
      var deleted := repo.Delete(job.trainingID, a.find, a.upsert);
      ok := deleted.Success?;
    }

    method SubmitJobToLCM(tr: TrainingRecord, a: SubmitAnswers) returns (ok: bool)
      requires Submittable(tr)
      modifies this`deployed, repo
      ensures (Snapshot(), ok) == Submit(old(Snapshot()), tr, a)
    {
      if !a.config { return false; }
      var stored := repo.Store(tr.(status := Some(tr.status.value.(status := PENDING))), a.store);
      if !stored { return false; }
      if !a.client { return false; }
      deployed := deployed + [tr.trainingID];
      return a.deploy;
    }

    method CreateTrainingJob(req: CreateRequest, id: TrainingId, now: string, o: Outside, a: CreateAnswers)
      returns (r: Result<TrainingId, Error>)
      requires Valid() && !Known(Snapshot(), id)
      modifies this`deployed, this`usageGauge, repo, db`entries, db`nextKey
      ensures Valid()
      ensures (Snapshot(), r)
        == CreateJob(old(Snapshot()), req, id, now, queues.Keys, gpuAvailable, queueSizeLimit, o, a)
    {
      var ok := ValidateRequest(req, o);
      if !ok || req.training.value.resources.None? { return Failure(InvalidArgument); }
      var gpuType := TransformResourceName(req.training.value.resources.value.gpuType);
      if gpuType != "" {
        if gpuType !in gpuAvailable { return Failure(InvalidArgument); }
        if gpuAvailable[gpuType] == 0 { return Failure(InvalidArgument); }
      }
      if !o.upload { return Failure(Unavailable); }
      var tr := Built(req, id, now);
      var q := if gpuType in queues then gpuType else "ANY";
      CreateOk(Snapshot(), tr, q, queueSizeLimit, a);
      r := QueueOrSubmit(tr, queues[q], a);
    }

    /** CreateTrainingJob from the size check on. */
    method QueueOrSubmit(tr: TrainingRecord, qHandler: TrainingJobQueue, a: CreateAnswers)
      returns (r: Result<TrainingId, Error>)
      requires qHandler.db == db && db.Valid() && NewRecord(tr)
      modifies this`deployed, this`usageGauge, repo, db`entries, db`nextKey
      ensures db.Valid()
      ensures (Snapshot(), r) == Create(old(Snapshot()), tr, qHandler.collection, queueSizeLimit, a)
    {
      var size := qHandler.Size(a.size);
      var qSize := if size.Success? then size.value else 0;
      if queueSizeLimit > 0 && qSize >= queueSizeLimit { return Failure(ResourceExhausted); }
      var rateLimited := true;
      if qSize == 0 { rateLimited := false; }
      var ok;
      if rateLimited {
        ok := EnqueueAndStore(tr, qHandler, a);
      } else {
        ok := SubmitJobToLCM(tr, a.submit);
      }
      if !ok { return Failure(Internal); }
      usageGauge := GaugeAdd(usageGauge, KeyOf(tr.userID, tr), ResourcesOf(tr).gpus);
      return Success(tr.trainingID);
    }

    method EnqueueAndStore(tr: TrainingRecord, qHandler: TrainingJobQueue, a: CreateAnswers) returns (ok: bool)
      requires qHandler.db == db && db.Valid() && Complete(tr) && tr.docId.None?
      modifies repo, db`entries, db`nextKey
      ensures db.Valid()
      ensures (Snapshot(), ok) == TrainerOps.Enqueue(old(Snapshot()), tr, qHandler.collection, a)
    {
      var queued := qHandler.Enqueue(tr.trainingID, a.enqueue);
      if !queued {
        var _ := InsertRecord(Failed(tr), a.store);
        return false;
      }
      ok := InsertRecord(tr, a.store);
    }

    method InsertRecord(tr: TrainingRecord, up: bool) returns (ok: bool)
      requires tr.docId.None?
      modifies repo
      ensures ok == up && repo.nextKey == old(repo.nextKey) + if up then 1 else 0
      ensures repo.docs == if up then old(repo.docs) + [tr.(docId := Some(old(repo.nextKey)))] else old(repo.docs)
    {
      ok := repo.Store(tr, up);
    }

    /** One round of pullJobFromQueue: all but the recursive call, which `again` asks for. The answers `o` are completed
        by whether Lock succeeded. */
    method PullRound(q: QueueName, o: RoundAnswers, quiet: bool) returns (a: RoundAnswers, again: bool)
      requires Valid() && q in queues
      modifies this`deployed, this`lockCalls, repo, jobHistory, db`entries, db`leases, db`nextLease, db`now
      ensures Valid()
      ensures var (w', again') := Round(old(Snapshot()), q, a);
        Snapshot() == AtTime(w', db.now) && again == again'
      ensures a == o.(lock := a.lock)
      ensures lockCalls == old(lockCalls) + LockPair(q, a.lock)
      ensures a.lock && a.unlock ==> LeaseFree(q)
      ensures quiet && old(LeasesRunOut(q)) ==> a.lock && LeasesRunOut(q)
    {
      ghost var w := Snapshot();
      again := false;
      var lease, _ := queues[q].Lock(quiet);
      a := o.(lock := lease.Success?);
      RoundIgnoresClock(w, q, a, db.now);
      RoundOk(w, q, a);
      if lease.Failure? { return; }
      lockCalls := lockCalls + [Locked(q)];
      var locked;
      locked, again := PullLocked(queues[q], a);
      if locked { Unlock(queues[q], a.unlock); }
    }

    method Unlock(qHandler: TrainingJobQueue, up: bool)
      requires qHandler.db == db && db.Valid()
      modifies this`lockCalls, db`leases
      ensures db.Valid() && lockCalls == old(lockCalls) + [Unlocked(qHandler.collection)]
      ensures db.leases <= old(db.leases)
      ensures up ==> forall l | l in db.leases && l.queue == qHandler.collection :: l.owner != qHandler.queueID
    {
      var _ := qHandler.Unlock(up);
      lockCalls := lockCalls + [Unlocked(qHandler.collection)];
    }

    /** A round under the lock, which is left to the caller to unlock if `locked`. */
    method PullLocked(qHandler: TrainingJobQueue, a: RoundAnswers) returns (locked: bool, again: bool)
      requires qHandler.db == db && db.Valid() && WorldOk(Snapshot()) && a.lock
      modifies this`deployed, this`lockCalls, repo, jobHistory, db`entries, db`leases
      ensures db.Valid()
      ensures (Snapshot(), again) == Round(old(Snapshot()), qHandler.collection, a)
      ensures lockCalls == old(lockCalls) + (if locked then [] else [Unlocked(qHandler.collection)])
      ensures db.leases <= old(db.leases)
      ensures !locked && a.unlock ==> forall l | l in db.leases && l.queue == qHandler.collection ::
        l.owner != qHandler.queueID
    {
      locked, again := true, false;
      var empty, ok := qHandler.Empty(a.size);
      if !ok || empty { return; }
      var peeked := qHandler.Peek(a.peek);
      if peeked.Failure? || peeked.value == "" { return; }
      var nextJobID := peeked.value;
      var found := repo.Find(nextJobID, a.find);
      if found.Failure? {
        if found.error == RepoError.NotFound { var _ := qHandler.Delete(nextJobID, a.queueFind, a.queueRemove); }
        return;
      }
      if StatusOf(found.value) != QUEUED {
        var _ := qHandler.Delete(nextJobID, a.queueFind, a.queueRemove);
        return;
      }
      if a.limiter.Limited? { return; }
      locked, again := PullSubmit(qHandler, found.value, a);
    }

    /** Nobody else is at work here, so Dequeue returns the job that Peek saw; the branch for the other case is part of
        Protocol. */
    method DequeueJob(qHandler: TrainingJobQueue, id: TrainingId, up: bool)
      requires qHandler.db == db && db.Valid() && qHandler.Contents() != [] && qHandler.Contents()[0].id == id
      modifies db`entries
      ensures db.Valid()
      ensures db.entries == if up then RemoveEntry(old(db.entries), old(qHandler.Contents())[0].key)
        else old(db.entries)
    {
      var dequeued := qHandler.Dequeue(up, up);
      if dequeued.Success? && dequeued.value != id { assert false; }
    }

    /** The rest of a round, once the rate limiter has let the job pass. */
    method PullSubmit(qHandler: TrainingJobQueue, found: TrainingRecord, a: RoundAnswers)
      returns (locked: bool, again: bool)
      requires qHandler.db == db && db.Valid() && Submittable(found)
      requires qHandler.Contents() != [] && qHandler.Contents()[0].id == found.trainingID
      modifies this`deployed, this`lockCalls, repo, jobHistory, db`entries, db`leases
      ensures db.Valid()
      ensures (Snapshot(), again) == Submission(old(Snapshot()), qHandler.collection, found, a)
      ensures lockCalls == old(lockCalls) + (if locked then [] else [Unlocked(qHandler.collection)])
      ensures db.leases <= old(db.leases)
      ensures !locked && a.unlock ==> forall l | l in db.leases && l.queue == qHandler.collection ::
        l.owner != qHandler.queueID
    {
      var trainingRecord := found.(zone := if a.limiter.Allowed? then a.limiter.zone else "");
      var submitted := SubmitJobToLCM(trainingRecord, a.submit);
      if !submitted { return true, false; }
      again := FinishRound(qHandler, trainingRecord, a);
      locked := false;
    }

    method FinishRound(qHandler: TrainingJobQueue, trainingRecord: TrainingRecord, a: RoundAnswers)
      returns (again: bool)
      requires qHandler.db == db && db.Valid() && Complete(trainingRecord)
      requires qHandler.Contents() != [] && qHandler.Contents()[0].id == trainingRecord.trainingID
      modifies this`lockCalls, jobHistory, db`entries, db`leases
      ensures db.Valid()
      ensures (Snapshot(), again) == Finish(old(Snapshot()), qHandler.collection, trainingRecord, a)
      ensures lockCalls == old(lockCalls) + [Unlocked(qHandler.collection)]
      ensures db.leases <= old(db.leases)
      ensures a.unlock ==> forall l | l in db.leases && l.queue == qHandler.collection :: l.owner != qHandler.queueID
    {
      DequeueJob(qHandler, trainingRecord.trainingID, a.dequeueFind && a.dequeueRemove);
      Unlock(qHandler, a.unlock);
      var ts := trainingRecord.status.value;
      var e := HistoryEntry(trainingRecord.trainingID, a.now, PENDING, ts.message, ts.errorCode);
      var _ := jobHistory.RecordJobStatus(e, a.history);
      return !a.limiter.Unreachable?;
    }

    /** The recursion ends because each round that goes on uses a QUEUED record up. Every Lock is paired with one Unlock
        before the next, and none of this trainer's leases is left on the queue when the call recurs, unless Unlock's
        own query failed. `o(n)`, `o(n + 1)`, ... are the answers to the rounds. */
    method PullJobFromQueue(q: QueueName, o: nat -> RoundAnswers, n: nat, quiet: bool)
      returns (rounds: seq<RoundAnswers>)
      requires Valid()
      modifies this`deployed, this`lockCalls, repo, jobHistory, db`entries, db`leases, db`nextLease, db`now
      ensures Valid()
      ensures q !in queues ==> rounds == [] && Snapshot() == old(Snapshot())
      ensures q in queues ==> IsTick(old(Snapshot()), q, rounds)
                              && Snapshot() == AtTime(Pull(old(Snapshot()), q, rounds), db.now)
      ensures lockCalls == old(lockCalls) + LockCalls(q, rounds)
      ensures Answered(rounds, o, n)
      ensures quiet && old(LeasesRunOut(q)) ==> AllLocked(rounds)
      decreases QueuedCount(repo.docs)
    {
      if q !in queues { return []; }
      ghost var w := Snapshot();
      var a, again := PullRound(q, o(n), quiet);
      if !again {
        TickOfOne(w, q, a, Round(w, q, a).0);
        LockCallsGrow(old(lockCalls), q, a, []);
        assert o(n + 0) == o(n);
        return [a];
      }
      assert a.unlock ==> LeaseFree(q);
      RoundShrinks(w, q, a);
      ghost var mid := Snapshot();
      rounds := PullJobFromQueue(q, o, n + 1, quiet);
      TickGrows(w, q, a, mid, rounds, Snapshot());
      LockCallsGrow(old(lockCalls), q, a, rounds);
      AnsweredGrows(a, rounds, o, n);
      rounds := [a] + rounds;
    }
  }
}
