// Requests that show which conditions the results about records, history and gauge need.
module TrainerExamples {
  import opened Wrappers
  import opened JobStatus
  import opened Records
  import opened Repository
  import opened TrainerOps
  import opened TrainerRuns
  import opened TrainerResults
  import opened UsageGauge

  /** A new request for two learners with one GPU each, in the given status and with the given `_id`. */
  function Job(status: Status, docId: Option<nat>): TrainingRecord {
    TrainingRecord(docId, "training-1", "user", "job-1",
                   Some(ModelDefinition(Some(Framework("tf", "1.5", Some("image"))))),
                   Some(Training(Some(Resources("K80", 1.0, 2)), ["data"], [])), [Datastore("data", map[], map[])],
                   Some(TrainingStatus(status, "", "", "", "", "", "", "")), "", "", false)
  }

  function OneJob(status: Status): World {
    World([Job(status, Some(0))], 1, [], [], 0, 0, map[], [])
  }

  lemma {:induction false} JobSubmittable(status: Status, docId: Option<nat>)
    ensures Submittable(Job(status, docId))
  {
    assert Job(status, docId).datastores[0].id == "data";
  }

  lemma {:induction false} OneJobOk(status: Status)
    ensures WorldOk(OneJob(status)) && FindDoc(OneJob(status).docs, "training-1") == Some(Job(status, Some(0)))
  {
    JobSubmittable(status, Some(0));
  }

  function ToStatus(status: Status): UpdateRequest {
    UpdateRequest("training-1", "user", status, "", "", "")
  }

  const ALL_UP: UpdateAnswers := UpdateAnswers(true, true, true, true)

  /** An update to DOWNLOADING is stored, the record cannot be read back, and the history does not show the status. A
      later update to DOWNLOADING does not mend that. */
  lemma {:induction false} FailedReadBackLeavesGap() returns (w: World, op: Op)
    ensures WorldOk(w) && HistoryComplete(w) && CanApply(w, op) && WorldOk(ApplyOp(w, op))
    ensures op == UpdateOp(ToStatus(DOWNLOADING), "1", ALL_UP.(verify := false)) && !HistoryComplete(ApplyOp(w, op))
    ensures Update(ApplyOp(w, op), op.req, "2", ALL_UP).0.history == ApplyOp(w, op).history
  {
    w, op := NotReadBack();
    UnrecordedLeavesGap(w, op);
    Again(w, op);
  }

  lemma {:induction false} Again(w: World, op: Op)
    requires WorldOk(w) && CanApply(w, op) && op.UpdateOp? && op.req == ToStatus(DOWNLOADING)
    requires WorldOk(ApplyOp(w, op)) && ChangeOf(w, op).Rewrite?
    ensures Update(ApplyOp(w, op), op.req, "2", ALL_UP).0.history == ApplyOp(w, op).history
  {
    AfterUpdate(w, op);
    StoredByUpdate(w, op);
    SameStatusWritesNothing(ApplyOp(w, op), op.req, "2", ALL_UP);
  }

  lemma {:induction false} NotReadBack() returns (w: World, op: Op)
    ensures WorldOk(w) && HistoryComplete(w) && CanApply(w, op) && WorldOk(ApplyOp(w, op)) && Unrecorded(w, op)
    ensures op == UpdateOp(ToStatus(DOWNLOADING), "1", ALL_UP.(verify := false))
  {
    w, op := OneJob(PENDING), UpdateOp(ToStatus(DOWNLOADING), "1", ALL_UP.(verify := false));
    OneJobOk(PENDING);
    StepOk(w, op);
    FoundAt(w.docs, w.nextDoc, "training-1");
  }

  lemma {:induction false} AfterUpdate(w: World, op: Op)
    requires WorldOk(w) && CanApply(w, op) && op.UpdateOp? && ChangeOf(w, op).Rewrite?
    ensures var w' := ApplyOp(w, op);
      FindDoc(w'.docs, op.req.id).Some? && FindDoc(w'.docs, op.req.id).value == ChangeOf(w, op).to
  {
    var c, w' := ChangeOf(w, op), ApplyOp(w, op);
    StepOk(w, op);
    DocsAfter(w, op);
    StoredByUpdate(w, op);
    assert w'.docs[c.k] in w'.docs;
    SameDoc(w'.docs, w'.nextDoc, w'.docs[c.k], FindDoc(w'.docs, op.req.id).value);
  }

  /** A soft delete of a PENDING job keeps the image location. */
  lemma {:induction false} DeleteKeepsImage() returns (w: World, w': World)
    ensures WorldOk(w)
    ensures w' == Delete(w, "training-1", "user", "ANY", DeleteAnswers(true, true, true, true, true, true, true)).0
    ensures |w'.docs| == 1 && w'.docs[0].deleted
    ensures w'.docs[0].model == Some(ModelDefinition(Some(Framework("tf", "1.5", Some("image")))))
  {
    w := OneJob(PENDING);
    OneJobOk(PENDING);
    FoundAt(w.docs, w.nextDoc, "training-1");
    w' := Delete(w, "training-1", "user", "ANY", DeleteAnswers(true, true, true, true, true, true, true)).0;
  }

  /** A halt of a COMPLETED job answers HALTED. */
  lemma {:induction false} HaltOfCompletedJob()
    ensures WorldOk(OneJob(COMPLETED))
    ensures Halt(OneJob(COMPLETED), "training-1", "user", true, Killed, "1", ALL_UP)
      == (OneJob(COMPLETED), Success(HaltResponse("job-1", "user", HALTED)))
  {
    OneJobOk(COMPLETED);
    HaltOfEndedJobSaysHalted(OneJob(COMPLETED), "training-1", "user", Killed, "1", ALL_UP);
  }

  // ---- the usage gauge ----

  function Empty(): World {
    World([], 0, [], [], 0, 0, map[], [])
  }

  const KEY: GaugeKey := GaugeKey("user", "K80", "tf", "1.5")

  const CREATE: Op :=
    CreateOp(Job(QUEUED, None), "ANY", 0, CreateAnswers(true, true, true, SubmitAnswers(true, true, true, true)))

  const FAIL: Op := UpdateOp(ToStatus(FAILED), "1", ALL_UP)

  lemma {:induction false} CreateCredits() returns (w1: World)
    ensures CanApply(Empty(), CREATE) && w1 == ApplyOp(Empty(), CREATE) && WorldOk(w1)
    ensures w1.docs == [Job(PENDING, Some(0))] && GaugeAt(w1.gauge, KEY) == 1.0
  {
    JobSubmittable(QUEUED, None);
    w1 := ApplyOp(Empty(), CREATE);
    StepOk(Empty(), CREATE);
    StepGauge(Empty(), CREATE, KEY);
  }

  lemma {:induction false} FailDebits(w: World)
    requires WorldOk(w) && w.docs == [Job(PENDING, Some(0))]
    ensures CanApply(w, FAIL) && GaugeAt(ApplyOp(w, FAIL).gauge, KEY) == GaugeAt(w.gauge, KEY) - 2.0
  {
    assert FindDoc(w.docs, "training-1") == Some(Job(PENDING, Some(0)));
    StepGauge(w, FAIL, KEY);
  }

  /** A job of two learners is created, which counts one GPU, and fails, which takes two away. */
  lemma {:induction false} TwoLearnersLeaveGaugeOff() returns (ws: seq<World>, ops: seq<Op>)
    ensures Run(ws, ops) && ws[0] == Empty() && |ops| == 2
    ensures GaugeAt(End(ws).gauge, KEY) == -1.0
  {
    var w1 := CreateCredits();
    FailDebits(w1);
    ops := [CREATE, FAIL];
    ws := RunOfTwo(Empty(), CREATE, w1, FAIL);
  }
}
