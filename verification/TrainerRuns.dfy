// Runs of the trainer's requests, each taken as one atomic step: what every step keeps, and what runs guarantee.
module TrainerRuns {
  import opened Wrappers
  import opened JobStatus
  import opened Entries
  import opened Records
  import opened Repository
  import opened TrainerOps

  datatype Op =
    | UpdateOp(req: UpdateRequest, now: string, ua: UpdateAnswers)
    | HaltOp(id: TrainingId, userID: string, getUp: bool, kill: KillAnswer, now: string, ua: UpdateAnswers)
    | DeleteOp(id: TrainingId, userID: string, q: QueueName, da: DeleteAnswers)
    | CreateOp(r: TrainingRecord, q: QueueName, limit: int, ca: CreateAnswers)
    | RoundOp(q: QueueName, ra: RoundAnswers)
    | WaitOp(d: nat)

  predicate Known(w: World, id: TrainingId) {
    (exists d | d in w.docs :: d.trainingID == id) || (exists e | e in w.entries :: e.id == id)
  }

  /** A create comes with a new id, and no update carries QUEUED; otherwise anything can be asked for at any time. */
  predicate CanApply(w: World, op: Op) {
    && (op.CreateOp? ==> NewRecord(op.r) && !Known(w, op.r.trainingID))
    && (op.UpdateOp? ==> op.req.status != QUEUED)
  }

  function ApplyOp(w: World, op: Op): World
    requires WorldOk(w) && CanApply(w, op)
  {
    match op
    case UpdateOp(req, now, ua) => Update(w, req, now, ua).0
    case HaltOp(id, userID, getUp, kill, now, ua) => Halt(w, id, userID, getUp, kill, now, ua).0
    case DeleteOp(id, userID, q, da) => Delete(w, id, userID, q, da).0
    case CreateOp(r, q, limit, ca) => Create(w, r, q, limit, ca).0
    case RoundOp(q, ra) => Round(w, q, ra).0
    case WaitOp(d) => w.(now := w.now + d)
  }

  // ---- what a step does to the training records ----

  /** A step leaves the records alone, rewrites one in place, or adds one. */
  datatype Change = Same | Rewrite(k: nat, to: TrainingRecord) | Append(added: TrainingRecord)

  predicate Fits(docs: seq<TrainingRecord>, c: Change) {
    && (c.Rewrite? ==> c.k < |docs| && !docs[c.k].deleted)
    && (c.Rewrite? ==> c.to.trainingID == docs[c.k].trainingID && c.to.docId == docs[c.k].docId)
  }

  function Changed(docs: seq<TrainingRecord>, c: Change): seq<TrainingRecord>
    requires Fits(docs, c)
  {
    match c
    case Same => docs
    case Rewrite(k, to) => docs[k := to]
    case Append(d) => docs + [d]
  }

  function UpdateChange(w: World, req: UpdateRequest, now: string, ua: UpdateAnswers): Change
    requires WorldOk(w)
  {
    if Reaches(w, req, ua.find) && ua.store
    then Rewrite(IndexOf(w.docs, req.id), Updated(FindDoc(w.docs, req.id).value, req, now))
    else Same
  }

  /** The record a round hands to submitJobToLCM, if it gets that far. */
  function Picked(w: World, q: QueueName, a: RoundAnswers): Option<TrainingRecord>
    requires WorldOk(w)
  {
    var jobs := Jobs(w.entries, q);
    if a.lock && a.size && jobs != [] && a.peek && jobs[0].id != "" && a.find && !a.limiter.Limited? then
      var tr := FindDoc(w.docs, jobs[0].id);
      if tr.Some? && StatusOf(tr.value) == QUEUED then tr else None
    else None
  }

  function Zoned(r: TrainingRecord, l: Limiter): TrainingRecord {
    r.(zone := if l.Allowed? then l.zone else "")
  }

  function CreateChange(w: World, r: TrainingRecord, q: QueueName, limit: int, ca: CreateAnswers): Change
    requires NewRecord(r)
  {
    var size := if ca.size then |Jobs(w.entries, q)| else 0;
    if limit > 0 && size >= limit then Same
    else if size != 0 then
      if !ca.store then Same
      else if ca.enqueue then Append(r.(docId := Some(w.nextDoc)))
      else Append(Failed(r).(docId := Some(w.nextDoc)))
    else if ca.submit.config && ca.submit.store then Append(Pending(r).(docId := Some(w.nextDoc)))
    else Same
  }

  function ChangeOf(w: World, op: Op): Change
    requires WorldOk(w) && CanApply(w, op)
  {
    match op
    case UpdateOp(req, now, ua) => UpdateChange(w, req, now, ua)
    case HaltOp(id, userID, getUp, kill, now, ua) =>
      if Get(w, id, userID, getUp).Success? && !kill.KillFailed?
        then UpdateChange(w, HaltRequest(id, userID), now, ua) else Same
    case DeleteOp(id, userID, q, da) =>
      var got := Get(w, id, userID, da.get);
      if got.Success? && da.find && da.upsert
        then Rewrite(IndexOf(w.docs, id), Remains(got.value).(docId := got.value.docId))
      else Same
    case CreateOp(r, q, limit, ca) => CreateChange(w, r, q, limit, ca)
    case RoundOp(q, ra) =>
      var tr := Picked(w, q, ra);
      if tr.Some? && ra.submit.config && ra.submit.store
      then Rewrite(IndexOf(w.docs, tr.value.trainingID), Pending(Zoned(tr.value, ra.limiter)))
      else Same
    case WaitOp(_) => Same
  }

  /** In a consistent collection the visible record of a training is its one document, and storing it again rewrites
      that document in place. */
  lemma {:induction false} FoundAt(docs: seq<TrainingRecord>, nextKey: nat, id: TrainingId)
    requires Consistent(docs, nextKey) && FindDoc(docs, id).Some?
    ensures var k, d := IndexOf(docs, id), FindDoc(docs, id).value;
      && k < |docs| && docs[k] == d && d.docId.Some? && Has(docs, d.docId.value)
      && forall r: TrainingRecord :: Replace(docs, d.docId.value, r) == docs[k := r]
  {
  }

  lemma {:induction false} UpdateDocs(w: World, req: UpdateRequest, now: string, ua: UpdateAnswers)
    requires WorldOk(w)
    ensures var c := UpdateChange(w, req, now, ua);
      && Fits(w.docs, c) && Update(w, req, now, ua).0.docs == Changed(w.docs, c)
      && Update(w, req, now, ua).0.nextDoc == w.nextDoc
  {
    if FindDoc(w.docs, req.id).Some? { FoundAt(w.docs, w.nextDoc, req.id); }
  }

  lemma {:induction false} DeleteDocs(w: World, op: Op)
    requires WorldOk(w) && op.DeleteOp?
    ensures var c := ChangeOf(w, op);
      Fits(w.docs, c) && ApplyOp(w, op).docs == Changed(w.docs, c) && ApplyOp(w, op).nextDoc == w.nextDoc
  {
  }

  lemma {:induction false} RoundDocs(w: World, op: Op)
    requires WorldOk(w) && op.RoundOp?
    ensures var c := ChangeOf(w, op);
      Fits(w.docs, c) && ApplyOp(w, op).docs == Changed(w.docs, c) && ApplyOp(w, op).nextDoc == w.nextDoc
  {
    var tr := Picked(w, op.q, op.ra);
    if tr.Some? { FoundAt(w.docs, w.nextDoc, Jobs(w.entries, op.q)[0].id); }
  }

  lemma {:induction false} CreateDocs(w: World, op: Op)
    requires WorldOk(w) && op.CreateOp? && CanApply(w, op)
    ensures var c := ChangeOf(w, op);
      && ApplyOp(w, op).docs == Changed(w.docs, c)
      && ApplyOp(w, op).nextDoc == w.nextDoc + if c.Append? then 1 else 0
  {
    CreateRequestDocs(w, op.r, op.q, op.limit, op.ca);
  }

  lemma {:induction false} CreateRequestDocs(w: World, r: TrainingRecord, q: QueueName, limit: int, a: CreateAnswers)
    requires NewRecord(r)
    ensures var w', c := Create(w, r, q, limit, a).0, CreateChange(w, r, q, limit, a);
      !c.Rewrite? && w'.docs == Changed(w.docs, c) && w'.nextDoc == w.nextDoc + if c.Append? then 1 else 0
  {
  }

  lemma {:induction false} EnqueueDocs(w: World, r: TrainingRecord, q: QueueName, a: CreateAnswers)
    requires Complete(r) && r.docId.None?
    ensures var w' := Enqueue(w, r, q, a).0;
      var stored := if a.enqueue then r else Failed(r);
      && w'.docs == (if a.store then w.docs + [stored.(docId := Some(w.nextDoc))] else w.docs)
      && w'.nextDoc == w.nextDoc + if a.store then 1 else 0
  {
  }

  lemma {:induction false} SubmitNewDocs(w: World, r: TrainingRecord, a: SubmitAnswers)
    requires Submittable(r) && r.docId.None?
    ensures var w' := Submit(w, r, a).0;
      && w'.docs == (if a.config && a.store then w.docs + [Pending(r).(docId := Some(w.nextDoc))] else w.docs)
      && w'.nextDoc == w.nextDoc + if a.config && a.store then 1 else 0
  {
  }

  /** Every step changes the records as ChangeOf says. */
  lemma {:induction false} DocsAfter(w: World, op: Op)
    requires WorldOk(w) && CanApply(w, op)
    ensures Fits(w.docs, ChangeOf(w, op)) && ApplyOp(w, op).docs == Changed(w.docs, ChangeOf(w, op))
    ensures ApplyOp(w, op).nextDoc == w.nextDoc + if ChangeOf(w, op).Append? then 1 else 0
  {
    match op
    case UpdateOp(req, now, ua) => UpdateDocs(w, req, now, ua);
    case HaltOp(id, userID, _, _, now, ua) => UpdateDocs(w, HaltRequest(id, userID), now, ua);
    case DeleteOp(_, _, _, _) => DeleteDocs(w, op);
    case RoundOp(_, _) => RoundDocs(w, op);
    case CreateOp(_, _, _, _) => CreateDocs(w, op);
    case WaitOp(_) =>
  }

  predicate ChangeOk(w: World, op: Op, c: Change) {
    && (c.Rewrite? ==> RecordOk(c.to))
    && (c.Append? ==> op.CreateOp? && RecordOk(c.added))
    && (c.Append? ==> c.added.docId == Some(w.nextDoc) && c.added.trainingID == op.r.trainingID)
  }

  lemma {:induction false} UpdateChangeOk(w: World, op: Op, req: UpdateRequest, now: string, ua: UpdateAnswers)
    requires WorldOk(w) && req.status != QUEUED
    ensures ChangeOk(w, op, UpdateChange(w, req, now, ua))
  {
  }

  /** An update that stores QUEUED on a record whose input no longer resolves. */
  predicate Spoils(w: World, req: UpdateRequest, ua: UpdateAnswers)
    requires WorldOk(w)
  {
    req.status == QUEUED && Reaches(w, req, ua.find) && ua.store && !Submittable(FindDoc(w.docs, req.id).value)
  }

  /** The only updates that leave a record which cannot be handled are those. */
  lemma {:induction false} UpdateOkIff(w: World, req: UpdateRequest, now: string, ua: UpdateAnswers)
    requires WorldOk(w)
    ensures WorldOk(Update(w, req, now, ua).0) <==> !Spoils(w, req, ua)
  {
    UpdateDocs(w, req, now, ua);
    var c := UpdateChange(w, req, now, ua);
    if c.Rewrite? {
      FoundAt(w.docs, w.nextDoc, req.id);
      UpdatedOkIff(FindDoc(w.docs, req.id).value, req, now);
      ReplaceKeepsConsistent(w.docs, w.nextDoc, c.k, c.to);
      RewriteOkIff(w.docs, c.k, c.to);
    }
  }

  lemma {:induction false} UpdatedOkIff(r: TrainingRecord, req: UpdateRequest, now: string)
    requires Complete(r) && !r.deleted
    ensures RecordOk(Updated(r, req, now)) <==> req.status != QUEUED || Submittable(r)
  {
  }

  lemma {:induction false} RewriteOkIff(docs: seq<TrainingRecord>, k: nat, to: TrainingRecord)
    requires k < |docs| && forall d | d in docs :: RecordOk(d)
    ensures (forall d | d in docs[k := to] :: RecordOk(d)) <==> RecordOk(to)
  {
    assert docs[k := to][k] == to;
  }

  lemma {:induction false} CreateChangeOk(w: World, op: Op)
    requires op.CreateOp? && NewRecord(op.r)
    ensures ChangeOk(w, op, CreateChange(w, op.r, op.q, op.limit, op.ca))
  {
  }

  lemma {:induction false} DeleteChangeOk(w: World, op: Op)
    requires WorldOk(w) && op.DeleteOp?
    ensures ChangeOk(w, op, ChangeOf(w, op))
  {
  }

  lemma {:induction false} RoundChangeOk(w: World, op: Op)
    requires WorldOk(w) && op.RoundOp?
    ensures ChangeOk(w, op, ChangeOf(w, op))
  {
  }

  /** Whatever a step stores is fit to be handled. */
  lemma {:induction false} StoredOk(w: World, op: Op)
    requires WorldOk(w) && CanApply(w, op)
    ensures ChangeOk(w, op, ChangeOf(w, op))
  {
    match op
    case UpdateOp(req, now, ua) => UpdateChangeOk(w, op, req, now, ua);
    case HaltOp(id, userID, _, _, now, ua) => UpdateChangeOk(w, op, HaltRequest(id, userID), now, ua);
    case DeleteOp(_, _, _, _) => DeleteChangeOk(w, op);
    case RoundOp(_, _) => RoundChangeOk(w, op);
    case CreateOp(_, _, _, _) => CreateChangeOk(w, op);
    case WaitOp(_) =>
  }

  /** Every step keeps one document per training, all of them fit to be handled. */
  lemma {:induction false} StepOk(w: World, op: Op)
    requires WorldOk(w) && CanApply(w, op)
    ensures WorldOk(ApplyOp(w, op))
  {
    DocsAfter(w, op);
    StoredOk(w, op);
    match ChangeOf(w, op)
    case Same =>
    case Rewrite(k, to) => ReplaceKeepsConsistent(w.docs, w.nextDoc, k, to);
    case Append(d) => InsertKeepsConsistent(w.docs, w.nextDoc, d);
  }

  // ---- runs ----

  ghost predicate Run(ws: seq<World>, ops: seq<Op>) {
    && |ws| == |ops| + 1
    && WorldOk(ws[0])
    && forall i | 0 <= i < |ops| :: WorldOk(ws[i]) && CanApply(ws[i], ops[i]) && ws[i + 1] == ApplyOp(ws[i], ops[i])
  }

  function End(ws: seq<World>): World
    requires ws != []
  {
    ws[|ws| - 1]
  }

  lemma {:induction false} RunOfTwo(w: World, a: Op, mid: World, b: Op) returns (ws: seq<World>)
    requires WorldOk(w) && CanApply(w, a) && mid == ApplyOp(w, a) && WorldOk(mid) && CanApply(mid, b)
    ensures Run(ws, [a, b]) && ws[0] == w && End(ws) == ApplyOp(mid, b)
  {
    ws := [w, mid, ApplyOp(mid, b)];
  }

  lemma {:induction false} ShorterRun(ws: seq<World>, ops: seq<Op>)
    requires Run(ws, ops) && ops != []
    ensures Run(ws[..|ops|], ops[..|ops| - 1])
    ensures End(ws[..|ops|]) == ws[|ops| - 1] && End(ws) == ApplyOp(ws[|ops| - 1], ops[|ops| - 1])
  {
  }
}
