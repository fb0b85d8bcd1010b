// What a create request leaves behind: whether it is let in, and the record, field by field, as a later request reads
// it.
module CreatedRecords {
  import opened Wrappers
  import opened JobStatus
  import opened Entries
  import opened Records
  import opened Repository
  import opened GpuLimits
  import opened TrainerOps
  import opened TrainerRuns
  import opened CreateRequests

  /** What a create is given besides the request itself. */
  datatype Setting = Setting(queues: set<QueueName>, available: map<string, int>, limit: int, o: Outside)

  function Answer(w: World, req: CreateRequest, id: TrainingId, now: string, s: Setting, a: CreateAnswers)
    : (World, Result<TrainingId, Error>)
  {
    CreateJob(w, req, id, now, s.queues, s.available, s.limit, s.o, a)
  }

  // ---- the record ----

  /** Without GPUs a job is a CPU job, a CPU job has no GPUs, and GPUs of no type are K80s. */
  predicate ResourcesGiven(asked: Resources, r: Resources) {
    && r.learners == asked.learners
    && r.gpus == (if TransformResourceName(asked.gpuType) == "CPU" then 0.0 else asked.gpus)
    && r.gpuType == (if asked.gpus == 0.0 then "CPU" else if asked.gpuType == "" then "nvidia-TeslaK80"
                     else asked.gpuType)
  }

  /** The record holds what the request asked for. */
  predicate Holds(req: CreateRequest, id: TrainingId, now: string, d: TrainingRecord) {
    && Complete(d) && d.trainingID == id && d.userID == req.userID && d.jobID == "" && !d.deleted
    && d.model == req.model && d.datastores == req.datastores && d.evaluationMetrics == req.evaluationMetrics
    && d.zone == "" && req.training.Some? && req.training.value.resources.Some?
    && d.training.value.inputData == req.training.value.inputData
    && d.training.value.outputData == req.training.value.outputData
    && ResourcesGiven(req.training.value.resources.value, d.training.value.resources.value)
    && d.status.value.submission == now
    && d.status.value.completion == "" && d.status.value.downloadStart == ""
    && d.status.value.processStart == "" && d.status.value.storeStart == ""
  }

  const ENQUEUE_FAILED: string := "Job was rate-limited and could not be enqueued"

  /** QUEUED behind other jobs, FAILED if the entry could not be put in, PENDING on the way to LCM. */
  predicate StatusGiven(ts: TrainingStatus, queues: bool, enqueued: bool) {
    if !queues then ts.status == PENDING && ts.message == "" && ts.errorCode == ""
    else if enqueued then ts.status == QUEUED && ts.message == "" && ts.errorCode == ""
    else ts.status == FAILED && ts.message == ENQUEUE_FAILED && ts.errorCode == "S210"
  }

  lemma {:induction false} BuiltHolds(req: CreateRequest, id: TrainingId, now: string)
    requires req.training.Some? && req.training.value.resources.Some? && Complete(Built(req, id, now))
    ensures Holds(req, id, now, Built(req, id, now))
    ensures StatusOf(Built(req, id, now)) == QUEUED
    ensures Built(req, id, now).status.value.message == "" && Built(req, id, now).status.value.errorCode == ""
  {
    assert TransformResourceName("CPU") == "CPU";
  }

  function TypeAsked(req: CreateRequest): string
    requires req.training.Some? && req.training.value.resources.Some?
  {
    req.training.value.resources.value.gpuType
  }

  /** The size of the queue as the create reads it. */
  function SizeRead(w: World, req: CreateRequest, queues: set<QueueName>, up: bool): nat
    requires req.training.Some? && req.training.value.resources.Some?
  {
    if up then |Jobs(w.entries, QueueKey(queues, TypeAsked(req)))| else 0
  }

  // ---- outcomes ----

  /** The request is valid, its files are uploaded, and the queue has room. */
  predicate LetIn(w: World, req: CreateRequest, s: Setting, a: CreateAnswers) {
    && Accepted(req, s.o, s.available) && s.o.upload
    && (s.limit > 0 ==> SizeRead(w, req, s.queues, a.size) < s.limit)
  }

  predicate AllUp(a: SubmitAnswers) {
    a.config && a.store && a.client && a.deploy
  }

  /** Which creates succeed, which are turned down and why; and a create that is turned down changes nothing. */
  lemma {:induction false} CreateResponds(w: World, req: CreateRequest, id: TrainingId, now: string, s: Setting,
                                          a: CreateAnswers)
    ensures var (w', r) := Answer(w, req, id, now, s, a);
      && (r.Success? <==>
            LetIn(w, req, s, a)
            && if SizeRead(w, req, s.queues, a.size) == 0 then AllUp(a.submit) else a.enqueue && a.store)
      && (r.Success? ==> r.value == id)
      && (r == Failure(InvalidArgument) <==> !Accepted(req, s.o, s.available))
      && (r == Failure(ResourceExhausted) <==>
            Accepted(req, s.o, s.available) && s.o.upload && 0 < s.limit <= SizeRead(w, req, s.queues, a.size))
      && (!LetIn(w, req, s, a) ==> w' == w && r.Failure?)
  {
  }

  /** The record the create inserts, if it gets that far. */
  function Inserted(w: World, req: CreateRequest, id: TrainingId, now: string, s: Setting, a: CreateAnswers)
    : Option<TrainingRecord>
  {
    if LetIn(w, req, s, a)
    then CreateDoc(w, Built(req, id, now), SizeRead(w, req, s.queues, a.size) != 0, a) else None
  }

  function CreateDoc(w: World, r: TrainingRecord, queues: bool, a: CreateAnswers): Option<TrainingRecord> {
    if !Complete(r) then None
    else if queues then
      if a.store then Some((if a.enqueue then r else Failed(r)).(docId := Some(w.nextDoc))) else None
    else if a.submit.config && a.submit.store then Some(Pending(r).(docId := Some(w.nextDoc))) else None
  }

  lemma {:induction false} CreateInserts(w: World, req: CreateRequest, id: TrainingId, now: string, s: Setting,
                                         a: CreateAnswers)
    ensures var d := Inserted(w, req, id, now, s, a);
      Answer(w, req, id, now, s, a).0.docs == if d.Some? then w.docs + [d.value] else w.docs
  {
    if LetIn(w, req, s, a) {
      CreateRequestDocs(w, Built(req, id, now), QueueKey(s.queues, TypeAsked(req)), s.limit, a);
    }
  }

  lemma {:induction false} InsertedHolds(w: World, req: CreateRequest, id: TrainingId, now: string, s: Setting,
                                         a: CreateAnswers)
    requires Inserted(w, req, id, now, s, a).Some?
    ensures var d := Inserted(w, req, id, now, s, a).value;
      && Holds(req, id, now, d)
      && StatusGiven(d.status.value, SizeRead(w, req, s.queues, a.size) != 0, a.enqueue)
  {
    BuiltHolds(req, id, now);
  }

  /** Main result: the record of a create is read back as it was asked for, by its own user and nobody else, and no
      other record is touched. A create that succeeds leaves a record. */
  lemma {:induction false} CreateRoundTrip(w: World, req: CreateRequest, id: TrainingId, now: string, s: Setting,
                                           a: CreateAnswers, user: string)
    requires WorldOk(w) && !Known(w, id)
    ensures var (w', r) := Answer(w, req, id, now, s, a);
      var d := FindDoc(w'.docs, id);
      && (r.Success? ==> d.Some?)
      && (d.None? ==> w'.docs == w.docs)
      && (d.Some? ==> LetIn(w, req, s, a) && w'.docs == w.docs + [d.value] && Holds(req, id, now, d.value))
      && (d.Some? ==> StatusGiven(d.value.status.value, SizeRead(w, req, s.queues, a.size) != 0, a.enqueue))
      && (d.Some? ==>
            Get(w', id, user, true) == if user == req.userID then Success(d.value) else Failure(PermissionDenied))
  {
    CreateResponds(w, req, id, now, s, a);
    CreateInserts(w, req, id, now, s, a);
    var d := Inserted(w, req, id, now, s, a);
    if d.Some? {
      InsertedHolds(w, req, id, now, s, a);
      FoundLast(w.docs, id, d.value);
    } else {
      NotFound(w.docs, id);
    }
  }

  lemma {:induction false} NotFound(docs: seq<TrainingRecord>, id: TrainingId)
    requires forall d | d in docs :: d.trainingID != id
    ensures FindDoc(docs, id).None?
  {
  }

  lemma {:induction false} FoundLast(docs: seq<TrainingRecord>, id: TrainingId, d: TrainingRecord)
    requires (forall e | e in docs :: e.trainingID != id) && d.trainingID == id && !d.deleted
    ensures FindDoc(docs + [d], id) == Some(d)
  {
    assert (docs + [d])[|docs|] == d;
  }

  // ---- the entry and the deployment ----

  /** Behind other jobs a create appends an entry with the present time, even if the record cannot be stored then; on an
      empty queue it sends the job to LCM once PENDING is stored. */
  lemma {:induction false} CreatePlaces(w: World, req: CreateRequest, id: TrainingId, now: string, s: Setting,
                                        a: CreateAnswers)
    requires LetIn(w, req, s, a)
    ensures var w', queues := Answer(w, req, id, now, s, a).0, SizeRead(w, req, s.queues, a.size) != 0;
      && w'.entries == (if queues && a.enqueue
                        then w.entries + [Entry(w.nextEntry, QueueKey(s.queues, TypeAsked(req)), id, w.now)]
                        else w.entries)
      && w'.deployed == (if !queues && a.submit.config && a.submit.store && a.submit.client then w.deployed + [id]
                         else w.deployed)
      && w'.history == w.history
  {
  }

  // ---- what is let in ----

  /** What a store must be for the job to run. */
  predicate Reachable(s: Datastore, connects: set<string>) {
    s.id != "" && s.connection != map[] && s.fields != map[] && s.id in connects
  }

  /** The record has an owner, a framework that is known or brings its image, one input and at most one output; and
      both are data stores of the record that are complete and can be reached. */
  predicate CanRun(d: TrainingRecord, o: Outside)
    requires Complete(d)
  {
    var f, t := d.model.value.framework.value, d.training.value;
    && d.userID != "" && f.name != "" && f.version != ""
    && (f.imageLocation.None? ==> exists k | k in o.frameworks :: SameLetters(k.0, f.name) && k.1 == f.version)
    && |t.inputData| == 1 && |t.outputData| <= 1
    && forall name | name in t.inputData + t.outputData ::
         exists ds | ds in d.datastores :: ds.id == name && Reachable(ds, o.connects)
  }

  lemma {:induction false} AcceptableCanRun(req: CreateRequest, id: TrainingId, now: string, o: Outside,
                                            d: TrainingRecord)
    requires Acceptable(req, o) && Holds(req, id, now, d)
    ensures CanRun(d, o)
  {
    var f := req.model.value.framework.value;
    if f.imageLocation.None? {
      var k := (LowerCase(f.name), f.version);
      assert k in o.frameworks && SameLetters(k.0, f.name);
    }
    forall name | name in req.training.value.inputData + req.training.value.outputData
      ensures exists ds | ds in req.datastores :: ds.id == name && Reachable(ds, o.connects)
    {
      var ds := FindDatastore(name, req.datastores).value;
      assert ds in req.datastores && ds.id == name && Reachable(ds, o.connects);
    }
  }

  /** A create leaves no record of a job that cannot run. */
  lemma {:induction false} CreatedCanRun(w: World, req: CreateRequest, id: TrainingId, now: string, s: Setting,
                                         a: CreateAnswers)
    requires WorldOk(w) && !Known(w, id) && FindDoc(Answer(w, req, id, now, s, a).0.docs, id).Some?
    ensures var d := FindDoc(Answer(w, req, id, now, s, a).0.docs, id).value; Complete(d) && CanRun(d, s.o)
  {
    CreateRoundTrip(w, req, id, now, s, a, "");
    AcceptableCanRun(req, id, now, s.o, FindDoc(Answer(w, req, id, now, s, a).0.docs, id).value);
  }

  /** The names are the same when capitals do not count, and the first has none. */
  predicate SameLetters(lower: string, name: string) {
    |lower| == |name| && forall i | 0 <= i < |name| ::
      !('A' <= lower[i] <= 'Z')
      && (lower[i] == name[i] || ('A' <= name[i] <= 'Z' && lower[i] as int == name[i] as int + 32))
  }

  /** Main result: with the limits an operator has set, each type once, a job may ask for no type in particular or for
      one whose limit is not zero; every other request is refused and changes nothing. */
  lemma {:induction false} TypesOffered(w: World, req: CreateRequest, id: TrainingId, now: string, s: Setting,
                                        a: CreateAnswers, limits: seq<Limit>)
    requires limits != [] && DistinctLimits(limits) && AllParse(Split(Join(WriteAll(limits), ','), ','))
    requires s.available == MapOf(Split(Join(WriteAll(limits), ','), ','))
    requires req.training.Some? && req.training.value.resources.Some?
    ensures var gpuType := TypeAsked(req);
      && (Accepted(req, s.o, s.available) <==>
            Acceptable(req, s.o) && (gpuType == "" || LimitFor(limits, gpuType) != 0))
      && (gpuType != "" && LimitFor(limits, gpuType) == 0 ==>
            Answer(w, req, id, now, s, a) == (w, Failure(InvalidArgument)))
  {
    ReadersAgree(limits, TypeAsked(req));
  }
}
