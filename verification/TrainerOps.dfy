// The trainer's requests as atomic operations on the database: what each answers and leaves behind.
// Answers of Mongo, LCM and the rate limiter are parameters.
module TrainerOps {
  import opened Wrappers
  import opened JobStatus
  import opened Entries
  import opened Records
  import opened Repository

  datatype Error = NotFound | PermissionDenied | InvalidArgument | ResourceExhausted | Internal | Unavailable

  /** The labels of trainerUsageGauge. */
  datatype GaugeKey = GaugeKey(userID: string, gpuType: string, framework: string, version: string)

  datatype World = World(
    docs: seq<TrainingRecord>, nextDoc: nat,       // training_jobs
    history: seq<HistoryEntry>,                    // job_history
    entries: seq<Entry>, nextEntry: nat, now: nat, // the queues, and the clock that stamps entries
    gauge: map<GaugeKey, real>,
    deployed: seq<TrainingId>)                     // DeployTrainingJob calls so far

  function GaugeAt(g: map<GaugeKey, real>, key: GaugeKey): real {
    if key in g then g[key] else 0.0
  }

  function GaugeAdd(g: map<GaugeKey, real>, key: GaugeKey, x: real): map<GaugeKey, real> {
    g[key := GaugeAt(g, key) + x]
  }

  function ResourcesOf(r: TrainingRecord): Resources
    requires Complete(r)
  {
    r.training.value.resources.value
  }

  function KeyOf(userID: string, r: TrainingRecord): GaugeKey
    requires Complete(r)
  {
    var f := r.model.value.framework.value;
    GaugeKey(userID, ResourcesOf(r).gpuType, f.name, f.version)
  }

  function StatusOf(r: TrainingRecord): Status
    requires Complete(r)
  {
    r.status.value.status
  }

  /** Building the job configuration dereferences the store of the first input. */
  predicate Submittable(r: TrainingRecord) {
    Complete(r) && r.training.value.inputData != [] && FindDatastore(r.training.value.inputData[0], r.datastores).Some?
  }

  function FindDatastore(id: string, ds: seq<Datastore>): (r: Option<Datastore>)
    ensures r.None? <==> forall d | d in ds :: d.id != id
    ensures r.Some? ==> r.value in ds && r.value.id == id
  {
    if ds == [] then None else if ds[0].id == id then Some(ds[0]) else FindDatastore(id, ds[1..])
  }

  /** What the handlers rely on when they dereference parts of stored records. */
  predicate RecordOk(d: TrainingRecord) {
    Complete(d) && (!d.deleted && StatusOf(d) == QUEUED ==> Submittable(d))
  }

  predicate WorldOk(w: World) {
    Consistent(w.docs, w.nextDoc) && forall d | d in w.docs :: RecordOk(d)
  }

  // ---- GetTrainingJob ----

  function Get(w: World, id: TrainingId, userID: string, up: bool): Result<TrainingRecord, Error> {
    if !up then Failure(Unavailable)
    else match FindDoc(w.docs, id)
      case None => Failure(Error.NotFound)
      case Some(tr) => if tr.userID != userID then Failure(PermissionDenied) else Success(tr)
  }

  // ---- UpdateTrainingJob ----

  datatype UpdateRequest = UpdateRequest(
    id: TrainingId, userID: string, status: Status, message: string, errorCode: string, timestamp: string)

  /** Which of the update's four database calls succeed. */
  datatype UpdateAnswers = UpdateAnswers(find: bool, store: bool, verify: bool, history: bool)

  /** A halt of a job that is already completed, failed or halted does nothing. */
  predicate IgnoredHalt(original: Status, requested: Status) {
    Terminal(original) && requested == HALTED
  }

  function GpusUsed(r: Resources): real {
    if r.learners > 1 then r.gpus * r.learners as real else r.gpus
  }

  function Stamp(given: string, now: string): string {
    if given != "" then given else now
  }

  /** The record an update stores. */
  function Updated(r: TrainingRecord, req: UpdateRequest, now: string): (u: TrainingRecord)
    requires Complete(r)
    ensures Complete(u) && u.docId == r.docId && u.trainingID == r.trainingID && u.userID == r.userID
    ensures u.deleted == r.deleted
    ensures StatusOf(u) == req.status && ResourcesOf(u) == ResourcesOf(r) && KeyOf(u.userID, u) == KeyOf(r.userID, r)
    ensures Terminal(req.status) ==> u.datastores == [] && u.model.value.framework.value.imageLocation == None
    ensures !Terminal(req.status) ==> u.datastores == r.datastores && u.model == r.model
  {
    var stamp := Stamp(req.timestamp, now);
    var ts := r.status.value.(status := req.status, message := req.message, errorCode := req.errorCode);
    var r1 := r.(status := Some(ts));
    if Terminal(req.status) then
      var f := r.model.value.framework.value.(imageLocation := None);
      r1.(status := Some(ts.(completion := stamp)), datastores := [], model := Some(ModelDefinition(Some(f))))
    else if req.status == DOWNLOADING then r1.(status := Some(ts.(downloadStart := stamp)))
    else if req.status == PROCESSING then r1.(status := Some(ts.(processStart := stamp)))
    else if req.status == STORING then r1.(status := Some(ts.(storeStart := stamp)))
    else r1
  }

  /** The update gets as far as the metrics: the record is there, the user may change it, and it is no ignored halt. */
  predicate Reaches(w: World, req: UpdateRequest, up: bool)
    requires WorldOk(w)
  {
    var tr := FindDoc(w.docs, req.id);
    up && tr.Some? && tr.value.userID == req.userID && !IgnoredHalt(StatusOf(tr.value), req.status)
  }

  /** The metrics of a terminal update are sent before the record is stored. */
  function GaugeAfter(w: World, req: UpdateRequest, tr: TrainingRecord): map<GaugeKey, real>
    requires Complete(tr)
  {
    if Terminal(req.status) then GaugeAdd(w.gauge, KeyOf(req.userID, tr), -GpusUsed(ResourcesOf(tr))) else w.gauge
  }

  /** A transition to another status is recorded, and so is every PROCESSING update. */
  function HistoryAfter(w: World, req: UpdateRequest, original: Status, now: string, up: bool): seq<HistoryEntry> {
    if up && (req.status != original || req.status == PROCESSING)
    then Record(w.history, HistoryEntry(req.id, Stamp(req.timestamp, now), req.status, req.message, req.errorCode))
    else w.history
  }

  /** `Success(None)` is the empty response to an ignored halt. */
  function Update(w: World, req: UpdateRequest, now: string, a: UpdateAnswers)
    : (World, Result<Option<TrainingId>, Error>)
    requires WorldOk(w)
  {
    var got := Get(w, req.id, req.userID, a.find);
    if got.Failure? then (w, Failure(got.error))
    else
      var tr := got.value;
      if IgnoredHalt(StatusOf(tr), req.status) then (w, Success(None))
      else
        StoreUpdate(w.(gauge := GaugeAfter(w, req, tr)), Updated(tr, req, now), StatusOf(tr), req, now, a)
  }

  /** Stores the record, reads it back and writes the history. */
  function StoreUpdate(w: World, r: TrainingRecord, original: Status, req: UpdateRequest, now: string, a: UpdateAnswers)
    : (World, Result<Option<TrainingId>, Error>)
  {
    var stored := StoreDoc(w.docs, w.nextDoc, r);
    if !a.store || stored.None? then (w, Failure(Unavailable))
    else
      var w1 := w.(docs := stored.value);
      if !a.verify || FindDoc(w1.docs, req.id).None? then (w1, Failure(Unavailable))
      else (w1.(history := HistoryAfter(w, req, original, now, a.history)), Success(Some(req.id)))
  }

  // ---- HaltTrainingJob ----

  datatype KillAnswer = Killed | AlreadyGone | KillFailed

  datatype HaltResponse = HaltResponse(jobID: string, userID: string, status: Status)

  /** The answer is the same for an ignored halt. */
  function Halt(w: World, id: TrainingId, userID: string, getUp: bool, kill: KillAnswer, now: string, a: UpdateAnswers)
    : (World, Result<HaltResponse, Error>)
    requires WorldOk(w)
  {
    var got := Get(w, id, userID, getUp);
    if got.Failure? then (w, Failure(got.error))
    else if kill == KillFailed then (w, Failure(Unavailable))
    else
      var (w', r) := Update(w, HaltRequest(id, userID), now, a);
      (w', if r.Failure? then Failure(r.error) else Success(HaltResponse(got.value.jobID, got.value.userID, HALTED)))
  }

  function HaltRequest(id: TrainingId, userID: string): UpdateRequest {
    UpdateRequest(id, userID, HALTED, "Halted by user", "0", "")
  }

  // ---- DeleteTrainingJob ----

  datatype DeleteAnswers = DeleteAnswers(
    get: bool, lock: bool, queueFind: bool, queueRemove: bool, unlock: bool, find: bool, upsert: bool)

  /** Which entry of the job the queue query happens to return. */
  function EntryOf(entries: seq<Entry>, q: QueueName, id: TrainingId): (r: Option<Entry>)
    ensures r.None? <==> forall e | e in Jobs(entries, q) :: e.id != id
    ensures r.Some? ==> r.value in Jobs(entries, q) && r.value.id == id
  {
    FirstWithId(Jobs(entries, q), id)
  }

  function DropEntry(entries: seq<Entry>, q: QueueName, id: TrainingId, up: bool): seq<Entry> {
    var e := EntryOf(entries, q, id);
    if up && e.Some? then RemoveEntry(entries, e.value.key) else entries
  }

  /** The answers of TDS, LCM and the object store do not matter: their errors are only logged. */
  function Delete(w: World, id: TrainingId, userID: string, q: QueueName, a: DeleteAnswers)
    : (World, Result<string, Error>)
    requires WorldOk(w)
  {
    var got := Get(w, id, userID, a.get);
    if got.Failure? then (w, Failure(got.error))
    else
      var queued := StatusOf(got.value) == QUEUED;
      var w1 := w.(entries := DropEntry(w.entries, q, id, queued && a.lock && a.queueFind && a.queueRemove));
      if !a.find || !a.upsert then (w1, Failure(Unavailable))
      else (w1.(docs := SoftDelete(w.docs, w.nextDoc, id).value), Success(got.value.jobID))
  }

  // ---- submitJobToLCM ----

  datatype SubmitAnswers = SubmitAnswers(config: bool, store: bool, client: bool, deploy: bool)

  function Pending(r: TrainingRecord): TrainingRecord
    requires Complete(r)
  {
    r.(status := Some(r.status.value.(status := PENDING)))
  }

  function Submit(w: World, r: TrainingRecord, a: SubmitAnswers): (World, bool)
    requires Submittable(r)
  {
    if !a.config then (w, false)
    else
      var stored := StoreDoc(w.docs, w.nextDoc, Pending(r));
      if !a.store || stored.None? then (w, false)
      else
        var w1 := w.(docs := stored.value, nextDoc := if r.docId.None? then w.nextDoc + 1 else w.nextDoc);
        if !a.client then (w1, false) else (w1.(deployed := w.deployed + [r.trainingID]), a.deploy)
  }

  // ---- CreateTrainingJob, from the queue size check on ----

  datatype CreateAnswers = CreateAnswers(size: bool, enqueue: bool, store: bool, submit: SubmitAnswers)

  /** A record the request handler has built: not yet inserted, QUEUED, with a resolvable input. */
  predicate NewRecord(r: TrainingRecord) {
    Submittable(r) && r.docId.None? && !r.deleted && StatusOf(r) == QUEUED
  }

  function Failed(r: TrainingRecord): TrainingRecord
    requires Complete(r)
  {
    r.(status := Some(r.status.value.(status := FAILED, message := "Job was rate-limited and could not be enqueued",
                                      errorCode := "S210")))
  }

  function InsertRecord(w: World, r: TrainingRecord): World {
    w.(docs := w.docs + [r.(docId := Some(w.nextDoc))], nextDoc := w.nextDoc + 1)
  }

  function Create(w: World, r: TrainingRecord, q: QueueName, limit: int, a: CreateAnswers)
    : (World, Result<TrainingId, Error>)
    requires NewRecord(r)
  {
    var size := if a.size then |Jobs(w.entries, q)| else 0;
    if limit > 0 && size >= limit then (w, Failure(ResourceExhausted))
    else
      var (w1, ok) := if size != 0 then Enqueue(w, r, q, a) else Submit(w, r, a.submit);
      if !ok then (w1, Failure(Internal)) else (Counted(w1, r), Success(r.trainingID))
  }

  /** The job has to queue: its entry goes in before its record. */
  function Enqueue(w: World, r: TrainingRecord, q: QueueName, a: CreateAnswers): (World, bool)
    requires Complete(r)
  {
    if !a.enqueue then (if a.store then InsertRecord(w, Failed(r)) else w, false)
    else
      var w1 := w.(entries := w.entries + [Entry(w.nextEntry, q, r.trainingID, w.now)], nextEntry := w.nextEntry + 1);
      (if a.store then InsertRecord(w1, r) else w1, a.store)
  }

  /** The usage gauge counts the GPUs of one learner. */
  function Counted(w: World, r: TrainingRecord): World
    requires Complete(r)
  {
    w.(gauge := GaugeAdd(w.gauge, KeyOf(r.userID, r), ResourcesOf(r).gpus))
  }

  // ---- pullJobFromQueue ----

  datatype Limiter = Allowed(zone: string) | Limited | Unreachable

  datatype RoundAnswers = RoundAnswers(
    lock: bool, size: bool, peek: bool, find: bool, queueFind: bool, queueRemove: bool,
    limiter: Limiter, submit: SubmitAnswers, dequeueFind: bool, dequeueRemove: bool, unlock: bool,
    now: string, history: bool)

  /** One round, up to the point where the goroutine calls itself; the flag says whether it does. */
  function Round(w: World, q: QueueName, a: RoundAnswers): (World, bool)
    requires WorldOk(w)
  {
    var jobs := Jobs(w.entries, q);
    if !a.lock || !a.size || jobs == [] || !a.peek || jobs[0].id == "" || !a.find then (w, false)
    else
      var id := jobs[0].id;
      var tr := FindDoc(w.docs, id);
      if tr.None? || StatusOf(tr.value) != QUEUED then
        (w.(entries := DropEntry(w.entries, q, id, a.queueFind && a.queueRemove)), false)
      else if a.limiter.Limited? then (w, false)
      else Submission(w, q, tr.value, a)
  }

  function Submission(w: World, q: QueueName, tr: TrainingRecord, a: RoundAnswers): (World, bool)
    requires Submittable(tr) && Jobs(w.entries, q) != []
  {
    var zoned := tr.(zone := if a.limiter.Allowed? then a.limiter.zone else "");
    var (w1, ok) := Submit(w, zoned, a.submit);
    if !ok then (w1, false)
    else Finish(w1, q, tr, a)
  }

  /** The submitted job is dequeued and its transition recorded. */
  function Finish(w: World, q: QueueName, tr: TrainingRecord, a: RoundAnswers): (World, bool)
    requires Complete(tr) && Jobs(w.entries, q) != []
  {
    var dequeued := RemoveEntry(w.entries, Jobs(w.entries, q)[0].key);
    var w1 := w.(entries := if a.dequeueFind && a.dequeueRemove then dequeued else w.entries);
    var e := HistoryEntry(tr.trainingID, a.now, PENDING, tr.status.value.message, tr.status.value.errorCode);
    (w1.(history := if a.history then Record(w.history, e) else w.history), !a.limiter.Unreachable?)
  }
}
