// What CreateTrainingJob does before it looks at the queue: validation, the GPU type check, defaults, choice of queue.
module CreateRequests {
  import opened Wrappers
  import opened JobStatus
  import opened Entries
  import opened Records
  import opened GpuLimits
  import opened TrainerOps

  /** `modelName` and `content` belong to the model definition, `command` to the training. */
  datatype CreateRequest = CreateRequest(
    userID: string, model: Option<ModelDefinition>, modelName: string, content: seq<bv8>, training: Option<Training>,
    command: string, datastores: seq<Datastore>, evaluationMetrics: string)

  /** What other code says: `frameworks` are the supported (name, version) pairs, `isZip` whether the content is a zip
      archive, `connects` the data stores that can be reached, `internalStore` whether the trainer has an object store
      of its own. */
  datatype Outside = Outside(
    frameworks: set<(string, string)>, isZip: bool, connects: set<string>, internalStore: bool, upload: bool)

  // ---- validateRequest ----

  /** The name refers to a data store that is fully described and can be reached. */
  predicate Usable(name: string, ds: seq<Datastore>, connects: set<string>) {
    var d := FindDatastore(name, ds);
    d.Some? && d.value.id != "" && d.value.connection != map[] && d.value.fields != map[] && d.value.id in connects
  }

  function LowerChar(c: char): char {
    if 'A' <= c <= 'Z' then (c as int - 'A' as int + 'a' as int) as char else c
  }

  /** `strings.ToLower`, on ASCII. */
  function LowerCase(s: string): string {
    seq(|s|, i requires 0 <= i < |s| => LowerChar(s[i]))
  }

  /** The framework is named with its version and, unless it brings its own image, is one of the known ones. */
  predicate Supported(f: Framework, frameworks: set<(string, string)>) {
    f.name != "" && f.version != "" && (f.imageLocation.Some? || (LowerCase(f.name), f.version) in frameworks)
  }

  predicate Acceptable(req: CreateRequest, o: Outside) {
    && req.userID != "" && req.model.Some? && req.modelName != "" && req.model.value.framework.Some?
    && Supported(req.model.value.framework.value, o.frameworks)
    && req.content != [] && o.isZip
    && req.training.Some? && req.command != "" && |req.training.value.inputData| == 1
    && |req.training.value.outputData| <= 1 && (|req.training.value.outputData| == 1 || o.internalStore)
    && req.datastores != []
    && forall name | name in req.training.value.inputData + req.training.value.outputData ::
         Usable(name, req.datastores, o.connects)
  }

  method ValidateRequest(req: CreateRequest, o: Outside) returns (ok: bool)
    ensures ok <==> Acceptable(req, o)
  {
    if req.userID == "" { return false; }
    if req.model.None? || req.modelName == "" || req.model.value.framework.None? { return false; }
    var f := req.model.value.framework.value;
    if f.name == "" || f.version == "" { return false; }
    if f.imageLocation.None? {
      if (LowerCase(f.name), f.version) !in o.frameworks { return false; }
    }
    if |req.content| == 0 || !o.isZip { return false; }
    if req.training.None? || req.command == "" { return false; }
    var t := req.training.value;
    if |t.inputData| == 0 || |t.inputData| > 1 { return false; }
    if |t.outputData| > 1 || (!o.internalStore && |t.outputData| == 0) { return false; }
    if req.datastores == [] { return false; }
    ok := ValidateDatastores(t.inputData, req.datastores, o.connects);
    if ok { ok := ValidateDatastores(t.outputData, req.datastores, o.connects); }
  }

  method ValidateDatastores(names: seq<string>, ds: seq<Datastore>, connects: set<string>) returns (ok: bool)
    ensures ok <==> forall name | name in names :: Usable(name, ds, connects)
  {
    for i := 0 to |names|
      invariant forall name | name in names[..i] :: Usable(name, ds, connects)
    {
      assert names[i] in names;
      var found := FindDatastore(names[i], ds);
      if found.None? { return false; }
      var d := found.value;
      if d.id == "" || d.connection == map[] || d.fields == map[] || d.id !in connects { return false; }
    }
    return true;
  }

  // ---- GPU types and defaults ----

  predicate GpuTypeOk(gpuType: string, available: map<string, int>) {
    var t := TransformResourceName(gpuType);
    t == "" || (t in available && available[t] != 0)
  }

  /** A job has no GPUs exactly if its type is the CPU type, and the type is never left empty. */
  function Defaulted(r: Resources): (d: Resources)
    ensures d.gpus == 0.0 <==> TransformResourceName(d.gpuType) == "CPU"
    ensures d.gpuType != "" && d.learners == r.learners
    ensures d.gpus == r.gpus || d.gpus == 0.0
  {
    assert TransformResourceName("CPU") == "CPU";
    var r1 := if r.gpus == 0.0 then r.(gpuType := "CPU") else r;
    var r2 := if TransformResourceName(r1.gpuType) == "CPU" then r1.(gpus := 0.0) else r1;
    if r2.gpuType == "" then r2.(gpuType := "nvidia-TeslaK80") else r2
  }

  function QueueKey(queues: set<QueueName>, gpuType: string): (q: QueueName)
    ensures "ANY" in queues ==> q in queues
  {
    var t := TransformResourceName(gpuType);
    if t in queues then t else "ANY"
  }

  /** Create picks the queue before the defaults are applied, delete after. They pick the same one exactly if: with no
      GPUs asked for, the type was already the CPU type, or neither type has a queue of its own; and with GPUs but no
      type, there is no queue for the default type. */
  predicate SameQueue(queues: set<QueueName>, r: Resources) {
    var t := TransformResourceName(r.gpuType);
    if r.gpus == 0.0 then t == "CPU" || ("CPU" !in queues && (t !in queues || t == "ANY"))
    else r.gpuType == "" ==> "NVIDIA_TESLAK80" !in queues
  }

  lemma {:induction false} QueuesAgreeIff(queues: set<QueueName>, r: Resources)
    requires "ANY" in queues && "" !in queues
    ensures QueueKey(queues, Defaulted(r).gpuType) == QueueKey(queues, r.gpuType) <==> SameQueue(queues, r)
  {
    assert TransformResourceName("CPU") == "CPU";
    var k80 := TransformResourceName("nvidia-TeslaK80");
    assert k80 == "NVIDIA_TESLAK80" by {
      assert k80[7] == 'T' && k80[8] == 'E';
    }
    if r.gpuType == "" { assert TransformResourceName(r.gpuType) == ""; }
  }

  /** A request for K80s that asks for none is queued with the K80 jobs and deleted from the CPU queue. */
  lemma {:induction false} ZeroGpuRequestSwitchesQueue()
    ensures var queues, r := {"NVIDIA_TESLAK80", "CPU", "ANY"}, Resources("nvidia-TeslaK80", 0.0, 1);
      && QueueKey(queues, r.gpuType) == "NVIDIA_TESLAK80" && QueueKey(queues, Defaulted(r).gpuType) == "CPU"
      && !SameQueue(queues, r)
  {
    var k80 := TransformResourceName("nvidia-TeslaK80");
    assert k80 == "NVIDIA_TESLAK80" by {
      assert k80[7] == 'T' && k80[8] == 'E';
    }
    assert TransformResourceName("CPU") == "CPU";
    assert k80[0] == 'N';
  }

  /** A delete of a QUEUED job with one entry, everything answering, leaves no entry of the job behind exactly if it
      looks in the queue that create put the entry in. */
  lemma {:induction false} DeleteCleansQueueIff(w: World, id: TrainingId, userID: string, queues: set<QueueName>,
                                                r: Resources, e: Entry, a: DeleteAnswers)
    requires WorldOk(w) && "ANY" in queues && "" !in queues
    requires a.get && a.lock && a.queueFind && a.queueRemove && a.find && a.upsert
    requires Get(w, id, userID, true).Success? && StatusOf(Get(w, id, userID, true).value) == QUEUED
    requires ResourcesOf(Get(w, id, userID, true).value) == Defaulted(r)
    requires e in w.entries && e.id == id && e.queue == QueueKey(queues, r.gpuType)
    requires forall f | f in w.entries && f.id == id :: f == e
    ensures var w' := Delete(w, id, userID, QueueKey(queues, Defaulted(r).gpuType), a).0;
      (forall f | f in w'.entries :: f.id != id) <==> SameQueue(queues, r)
  {
    var q := QueueKey(queues, Defaulted(r).gpuType);
    QueuesAgreeIff(queues, r);
    var entries' := DropEntry(w.entries, q, id, true);
    assert Delete(w, id, userID, q, a).0.entries == entries';
    if q == e.queue {
      assert e in Jobs(w.entries, q);
      assert EntryOf(w.entries, q, id).value == e;
    } else {
      assert entries' == w.entries;
    }
  }

  // ---- the whole request ----

  /** The record of an accepted request. */
  function Built(req: CreateRequest, id: TrainingId, now: string): (r: TrainingRecord)
    requires req.training.Some? && req.training.value.resources.Some?
    ensures forall o | Acceptable(req, o) :: NewRecord(r)
    ensures r.trainingID == id
  {
    var t := req.training.value;
    assert |t.inputData| == 1 ==> t.inputData[0] in t.inputData + t.outputData;
    TrainingRecord(None, id, req.userID, "", req.model, Some(t.(resources := Some(Defaulted(t.resources.value)))),
                   req.datastores, Some(TrainingStatus(QUEUED, "", "", now, "", "", "", "")),
                   req.evaluationMetrics, "", false)
  }

  predicate Accepted(req: CreateRequest, o: Outside, available: map<string, int>) {
    && Acceptable(req, o) && req.training.value.resources.Some?
    && GpuTypeOk(req.training.value.resources.value.gpuType, available)
  }

  function CreateJob(w: World, req: CreateRequest, id: TrainingId, now: string, queues: set<QueueName>,
                     available: map<string, int>, limit: int, o: Outside, a: CreateAnswers)
    : (World, Result<TrainingId, Error>)
  {
    if !Accepted(req, o, available) then (w, Failure(InvalidArgument))
    else if !o.upload then (w, Failure(Unavailable))
    else Create(w, Built(req, id, now), QueueKey(queues, req.training.value.resources.value.gpuType), limit, a)
  }
}
