// The usage gauge over whole runs: creates add the GPUs of one learner, terminal updates take away those of all.
module UsageGauge {
  import opened Wrappers
  import opened JobStatus
  import opened Entries
  import opened Records
  import opened Repository
  import opened TrainerOps
  import opened TrainerRuns

  /** The record whose terminal update a step reports to the metrics, stored or not. */
  function Terminated(w: World, op: Op): Option<TrainingRecord>
    requires WorldOk(w) && CanApply(w, op)
  {
    match op
    case UpdateOp(req, _, ua) =>
      if Terminal(req.status) && Reaches(w, req, ua.find) then FindDoc(w.docs, req.id) else None
    case HaltOp(id, userID, getUp, kill, _, ua) =>
      if Get(w, id, userID, getUp).Success? && !kill.KillFailed? && Reaches(w, HaltRequest(id, userID), ua.find)
      then FindDoc(w.docs, id) else None
    case _ => None
  }

  /** The record of a create that answered with success. */
  function CreatedBy(w: World, op: Op): Option<TrainingRecord>
    requires WorldOk(w) && CanApply(w, op)
  {
    if op.CreateOp? && Create(w, op.r, op.q, op.limit, op.ca).1.Success? then Some(op.r) else None
  }

  predicate Counts(r: Option<TrainingRecord>, key: GaugeKey)
  {
    r.Some? && Complete(r.value) && KeyOf(r.value.userID, r.value) == key
  }

  function Credit(w: World, op: Op, key: GaugeKey): real
    requires WorldOk(w) && CanApply(w, op)
  {
    var r := CreatedBy(w, op);
    if Counts(r, key) then ResourcesOf(r.value).gpus else 0.0
  }

  function Debit(w: World, op: Op, key: GaugeKey): real
    requires WorldOk(w) && CanApply(w, op)
  {
    var r := Terminated(w, op);
    if Counts(r, key) then GpusUsed(ResourcesOf(r.value)) else 0.0
  }

  lemma {:induction false} StepGauge(w: World, op: Op, key: GaugeKey)
    requires WorldOk(w) && CanApply(w, op)
    ensures GaugeAt(ApplyOp(w, op).gauge, key) == GaugeAt(w.gauge, key) + Credit(w, op, key) - Debit(w, op, key)
  {
    match op
    case UpdateOp(req, now, ua) => UpdateGauge(w, req, now, ua, key);
    case HaltOp(id, userID, _, _, now, ua) => UpdateGauge(w, HaltRequest(id, userID), now, ua, key);
    case CreateOp(_, _, _, _) => CreateGauge(w, op, key);
    case RoundOp(q, ra) => RoundKeepsGauge(w, q, ra);
    case _ =>
  }

  lemma {:induction false} RoundKeepsGauge(w: World, q: QueueName, a: RoundAnswers)
    requires WorldOk(w)
    ensures Round(w, q, a).0.gauge == w.gauge
  {
  }

  lemma {:induction false} UpdateGauge(w: World, req: UpdateRequest, now: string, ua: UpdateAnswers, key: GaugeKey)
    requires WorldOk(w)
    ensures var tr := if Terminal(req.status) && Reaches(w, req, ua.find) then FindDoc(w.docs, req.id) else None;
      GaugeAt(Update(w, req, now, ua).0.gauge, key)
      == GaugeAt(w.gauge, key) - if Counts(tr, key) then GpusUsed(ResourcesOf(tr.value)) else 0.0
  {
  }

  lemma {:induction false} CreateGauge(w: World, op: Op, key: GaugeKey)
    requires WorldOk(w) && CanApply(w, op) && op.CreateOp?
    ensures GaugeAt(ApplyOp(w, op).gauge, key) == GaugeAt(w.gauge, key) + Credit(w, op, key)
  {
  }

  ghost function Credits(ws: seq<World>, ops: seq<Op>, key: GaugeKey): real
    requires Run(ws, ops)
    decreases |ops|
  {
    if ops == [] then 0.0
    else
      ShorterRun(ws, ops);
      Credits(ws[..|ops|], ops[..|ops| - 1], key) + Credit(ws[|ops| - 1], ops[|ops| - 1], key)
  }

  ghost function Debits(ws: seq<World>, ops: seq<Op>, key: GaugeKey): real
    requires Run(ws, ops)
    decreases |ops|
  {
    if ops == [] then 0.0
    else
      ShorterRun(ws, ops);
      Debits(ws[..|ops|], ops[..|ops| - 1], key) + Debit(ws[|ops| - 1], ops[|ops| - 1], key)
  }

  /** Over any run the gauge of a (user, GPU type, framework, version) moves by the Gpus of its successful creates less
      Gpus * max(1, Learners) of the terminal updates that reached the metrics. */
  lemma {:induction false} GaugeAccounts(ws: seq<World>, ops: seq<Op>, key: GaugeKey)
    requires Run(ws, ops)
    ensures GaugeAt(End(ws).gauge, key) == GaugeAt(ws[0].gauge, key) + Credits(ws, ops, key) - Debits(ws, ops, key)
    decreases |ops|
  {
    if ops != [] {
      var n := |ops| - 1;
      ShorterRun(ws, ops);
      GaugeAccounts(ws[..|ops|], ops[..n], key);
      StepGauge(ws[n], ops[n], key);
    }
  }

  // ---- what the gauge means, and which requests make it wrong ----

  function Share(d: TrainingRecord, closed: set<TrainingId>, key: GaugeKey): real {
    if d.trainingID !in closed && Counts(Some(d), key) then ResourcesOf(d).gpus else 0.0
  }

  /** The GPUs of the jobs without a terminal update. */
  function Outstanding(docs: seq<TrainingRecord>, closed: set<TrainingId>, key: GaugeKey): real {
    if docs == [] then 0.0
    else Outstanding(docs[..|docs| - 1], closed, key) + Share(docs[|docs| - 1], closed, key)
  }

  lemma {:induction false} OutstandingRewrite(docs: seq<TrainingRecord>, closed: set<TrainingId>, key: GaugeKey, k: nat,
                                              to: TrainingRecord)
    requires k < |docs| && Share(to, closed, key) == Share(docs[k], closed, key)
    ensures Outstanding(docs[k := to], closed, key) == Outstanding(docs, closed, key)
    decreases |docs|
  {
    var n := |docs| - 1;
    if k < n {
      assert docs[k := to][..n] == docs[..n][k := to];
      OutstandingRewrite(docs[..n], closed, key, k, to);
    } else {
      assert docs[k := to][..n] == docs[..n];
    }
  }

  /** Closing a job takes its share out. */
  lemma {:induction false} OutstandingClose(docs: seq<TrainingRecord>, closed: set<TrainingId>, key: GaugeKey, k: nat)
    requires k < |docs| && docs[k].trainingID !in closed
    requires forall i, j | 0 <= i < j < |docs| :: docs[i].trainingID != docs[j].trainingID
    ensures Outstanding(docs, closed + {docs[k].trainingID}, key)
      == Outstanding(docs, closed, key) - Share(docs[k], closed, key)
    decreases |docs|
  {
    var n, id := |docs| - 1, docs[k].trainingID;
    if k < n {
      OutstandingClose(docs[..n], closed, key, k);
    } else {
      OutstandingUnaffected(docs[..n], closed, key, id);
    }
  }

  lemma {:induction false} OutstandingUnaffected(docs: seq<TrainingRecord>, closed: set<TrainingId>, key: GaugeKey,
                                                 id: TrainingId)
    requires forall i | 0 <= i < |docs| :: docs[i].trainingID != id
    ensures Outstanding(docs, closed + {id}, key) == Outstanding(docs, closed, key)
    decreases |docs|
  {
    if docs != [] { OutstandingUnaffected(docs[..|docs| - 1], closed, key, id); }
  }

  function Close(w: World, op: Op, closed: set<TrainingId>): set<TrainingId>
    requires WorldOk(w) && CanApply(w, op)
  {
    closed + if Terminated(w, op).Some? then {Terminated(w, op).value.trainingID} else {}
  }

  predicate IsKnown(w: World, id: TrainingId) {
    exists d | d in w.docs :: d.trainingID == id
  }

  /** Every gauge shows the GPUs of the jobs that are not closed. */
  ghost predicate Balanced(w: World, closed: set<TrainingId>) {
    && (forall id | id in closed :: IsKnown(w, id))
    && (forall key :: GaugeAt(w.gauge, key) == Outstanding(w.docs, closed, key))
  }

  /** A create leaves a record of a job with GPUs without having succeeded, or the metrics hear of the end of such a job
      again, or of one with several learners. */
  predicate Skews(w: World, op: Op, closed: set<TrainingId>)
    requires WorldOk(w) && CanApply(w, op)
  {
    || (ChangeOf(w, op).Append? && CreatedBy(w, op).None? && ResourcesOf(op.r).gpus != 0.0)
    || (Terminated(w, op).Some?
        && (var r := Terminated(w, op).value;
            Complete(r) && ResourcesOf(r).gpus != 0.0 && (r.trainingID in closed || ResourcesOf(r).learners > 1)))
  }

  /** A rewrite keeps what the gauge counts of a record, and a create stores what it was given. */
  lemma {:induction false} SharesKept(w: World, op: Op)
    requires WorldOk(w) && CanApply(w, op)
    ensures var c := ChangeOf(w, op);
      && Fits(w.docs, c)
      && (c.Rewrite? ==> Complete(c.to) && Alike(c.to, w.docs[c.k]))
      && (c.Append? ==> op.CreateOp? && Complete(c.added))
      && (c.Append? ==> Alike(c.added, op.r) && c.added.trainingID == op.r.trainingID)
  {
    DocsAfter(w, op);
    match op
    case UpdateOp(req, now, ua) => UpdateKeepsShare(w, req, now, ua);
    case HaltOp(id, userID, _, _, now, ua) => UpdateKeepsShare(w, HaltRequest(id, userID), now, ua);
    case DeleteOp(_, _, _, _) => DeleteKeepsShare(w, op);
    case RoundOp(_, _) => RoundKeepsShare(w, op);
    case _ =>
  }

  predicate KeepsShare(w: World, c: Change) {
    c.Rewrite? ==> c.k < |w.docs| && Complete(c.to) && Alike(c.to, w.docs[c.k])
  }

  lemma {:induction false} UpdateKeepsShare(w: World, req: UpdateRequest, now: string, ua: UpdateAnswers)
    requires WorldOk(w)
    ensures KeepsShare(w, UpdateChange(w, req, now, ua))
  {
  }

  lemma {:induction false} DeleteKeepsShare(w: World, op: Op)
    requires WorldOk(w) && op.DeleteOp?
    ensures KeepsShare(w, ChangeOf(w, op))
  {
  }

  lemma {:induction false} RoundKeepsShare(w: World, op: Op)
    requires WorldOk(w) && op.RoundOp?
    ensures KeepsShare(w, ChangeOf(w, op))
  {
  }

  predicate Alike(r: TrainingRecord, s: TrainingRecord) {
    Complete(r) && Complete(s) ==> ResourcesOf(r) == ResourcesOf(s) && KeyOf(r.userID, r) == KeyOf(s.userID, s)
  }

  lemma {:induction false} ShareAlike(r: TrainingRecord, s: TrainingRecord, closed: set<TrainingId>, key: GaugeKey)
    requires Complete(r) && Complete(s) && Alike(r, s) && r.trainingID == s.trainingID
    ensures Share(r, closed, key) == Share(s, closed, key)
  {
  }

  /** What the record a step adds is counted for. */
  function Added(w: World, op: Op, closed: set<TrainingId>, key: GaugeKey): real
    requires WorldOk(w) && CanApply(w, op)
  {
    var c := ChangeOf(w, op);
    if c.Append? then Share(c.added, closed, key) else 0.0
  }

  /** What the job a step reports was counted for. */
  function Closed(w: World, op: Op, closed: set<TrainingId>, key: GaugeKey): real
    requires WorldOk(w) && CanApply(w, op)
  {
    if Terminated(w, op).Some? then Share(Terminated(w, op).value, closed, key) else 0.0
  }

  lemma {:induction false} StepOutstanding(w: World, op: Op, closed: set<TrainingId>, key: GaugeKey)
    requires WorldOk(w) && CanApply(w, op)
    ensures Outstanding(ApplyOp(w, op).docs, closed, key)
      == Outstanding(w.docs, closed, key) + Added(w, op, closed, key)
  {
    DocsAfter(w, op);
    SharesKept(w, op);
    ChangeOutstanding(w.docs, ChangeOf(w, op), closed, key);
  }

  lemma {:induction false} ChangeOutstanding(docs: seq<TrainingRecord>, c: Change, closed: set<TrainingId>,
                                             key: GaugeKey)
    requires Fits(docs, c) && (forall d | d in docs :: Complete(d))
    requires c.Rewrite? ==> Complete(c.to) && Alike(c.to, docs[c.k])
    ensures Outstanding(Changed(docs, c), closed, key)
      == Outstanding(docs, closed, key) + if c.Append? then Share(c.added, closed, key) else 0.0
  {
    match c
    case Same =>
    case Rewrite(k, to) =>
      assert docs[k] in docs;
      ShareAlike(to, docs[k], closed, key);
      OutstandingRewrite(docs, closed, key, k, to);
    case Append(d) => assert (docs + [d])[..|docs|] == docs;
  }

  /** A reported job is one of the records, before and after the step. */
  lemma {:induction false} TerminatedAt(w: World, op: Op) returns (k: nat)
    requires WorldOk(w) && CanApply(w, op) && Terminated(w, op).Some?
    ensures k < |w.docs| && w.docs[k] == Terminated(w, op).value
    ensures |ApplyOp(w, op).docs| == |w.docs| && ApplyOp(w, op).docs[k].trainingID == w.docs[k].trainingID
    ensures Complete(w.docs[k]) && Complete(ApplyOp(w, op).docs[k]) && Alike(ApplyOp(w, op).docs[k], w.docs[k])
  {
    DocsAfter(w, op);
    SharesKept(w, op);
    k := IndexOf(w.docs, Terminated(w, op).value.trainingID);
    FoundAt(w.docs, w.nextDoc, Terminated(w, op).value.trainingID);
  }

  /** Closing the job a step reports takes out what it was counted for. */
  lemma {:induction false} StepCloses(w: World, op: Op, closed: set<TrainingId>, key: GaugeKey)
    requires WorldOk(w) && CanApply(w, op)
    ensures Outstanding(ApplyOp(w, op).docs, Close(w, op, closed), key)
      == Outstanding(ApplyOp(w, op).docs, closed, key) - Closed(w, op, closed, key)
  {
    if Terminated(w, op).Some? {
      var k := TerminatedAt(w, op);
      StepOk(w, op);
      CloseAt(w, ApplyOp(w, op), closed, key, k);
    } else {
      assert closed + {} == closed;
    }
  }

  lemma {:induction false} CloseAt(w: World, w': World, closed: set<TrainingId>, key: GaugeKey, k: nat)
    requires WorldOk(w') && k < |w.docs| == |w'.docs| && w'.docs[k].trainingID == w.docs[k].trainingID
    requires Complete(w.docs[k]) && Complete(w'.docs[k]) && Alike(w'.docs[k], w.docs[k])
    ensures Outstanding(w'.docs, closed + {w.docs[k].trainingID}, key)
      == Outstanding(w'.docs, closed, key) - Share(w.docs[k], closed, key)
  {
    ShareAlike(w'.docs[k], w.docs[k], closed, key);
    if w.docs[k].trainingID in closed {
      assert closed + {w.docs[k].trainingID} == closed;
    } else {
      OutstandingClose(w'.docs, closed, key, k);
    }
  }

  lemma {:induction false} StepKeepsClosed(w: World, op: Op, closed: set<TrainingId>, id: TrainingId)
    requires WorldOk(w) && CanApply(w, op) && (forall x | x in closed :: IsKnown(w, x)) && id in Close(w, op, closed)
    ensures IsKnown(ApplyOp(w, op), id)
  {
    if id in closed {
      var d :| d in w.docs && d.trainingID == id;
      StepKeepsTraining(w, op, d);
    } else {
      var k := TerminatedAt(w, op);
      StepKeepsTraining(w, op, w.docs[k]);
    }
  }

  lemma {:induction false} StepKeepsTraining(w: World, op: Op, d: TrainingRecord)
    requires WorldOk(w) && CanApply(w, op) && d in w.docs
    ensures IsKnown(ApplyOp(w, op), d.trainingID)
  {
    DocsAfter(w, op);
    var docs' := ApplyOp(w, op).docs;
    var k :| 0 <= k < |w.docs| && w.docs[k] == d;
    assert docs'[k] in docs' && docs'[k].trainingID == d.trainingID;
  }

  /** By how much a step moves the gauge away from what is outstanding. */
  function Drift(w: World, op: Op, closed: set<TrainingId>, key: GaugeKey): real
    requires WorldOk(w) && CanApply(w, op)
  {
    Credit(w, op, key) - Added(w, op, closed, key) - Debit(w, op, key) + Closed(w, op, closed, key)
  }

  lemma {:induction false} StepDrifts(w: World, op: Op, closed: set<TrainingId>, key: GaugeKey)
    requires WorldOk(w) && CanApply(w, op) && Balanced(w, closed)
    ensures GaugeAt(ApplyOp(w, op).gauge, key)
      == Outstanding(ApplyOp(w, op).docs, Close(w, op, closed), key) + Drift(w, op, closed, key)
  {
    StepGauge(w, op, key);
    StepOutstanding(w, op, closed, key);
    StepCloses(w, op, closed, key);
  }

  /** A create that succeeds leaves its record, and one that leaves a record is of a job not known before. */
  lemma {:induction false} CreateDrift(w: World, op: Op, closed: set<TrainingId>, key: GaugeKey)
    requires WorldOk(w) && CanApply(w, op) && op.CreateOp? && forall x | x in closed :: IsKnown(w, x)
    ensures CreatedBy(w, op).Some? ==> ChangeOf(w, op).Append?
    ensures Drift(w, op, closed, key) ==
      if ChangeOf(w, op).Append? && CreatedBy(w, op).None? && KeyOf(op.r.userID, op.r) == key
      then -ResourcesOf(op.r).gpus else 0.0
  {
    SharesKept(w, op);
    assert op.r.trainingID !in closed;
  }

  lemma {:induction false} EndDrift(w: World, op: Op, closed: set<TrainingId>, key: GaugeKey)
    requires WorldOk(w) && CanApply(w, op) && !op.CreateOp?
    ensures Terminated(w, op).Some? ==> Complete(Terminated(w, op).value)
    ensures Drift(w, op, closed, key) ==
      if Terminated(w, op).Some? && Counts(Terminated(w, op), key) then
        var r := Terminated(w, op).value;
        (if r.trainingID in closed then 0.0 else ResourcesOf(r).gpus) - GpusUsed(ResourcesOf(r))
      else 0.0
  {
    SharesKept(w, op);
    if Terminated(w, op).Some? { var k := TerminatedAt(w, op); }
  }

  lemma {:induction false} GpusUsedIs(r: Resources)
    ensures GpusUsed(r) == r.gpus <==> r.gpus == 0.0 || r.learners <= 1
    ensures GpusUsed(r) == 0.0 <==> r.gpus == 0.0
  {
    if r.learners > 1 {
      var n := r.learners as real;
      assert r.gpus * n - r.gpus == r.gpus * (n - 1.0);
      NonZeroProduct(r.gpus, n);
      NonZeroProduct(r.gpus, n - 1.0);
    }
  }

  lemma {:induction false} NonZeroProduct(x: real, y: real)
    requires y > 0.0
    ensures x * y == 0.0 <==> x == 0.0
  {
    if x > 0.0 { assert x * y > 0.0; } else if x < 0.0 { assert -x * y > 0.0; }
  }

  lemma {:induction false} CreateDriftsIff(w: World, op: Op, closed: set<TrainingId>, key: GaugeKey)
    requires WorldOk(w) && CanApply(w, op) && op.CreateOp? && forall x | x in closed :: IsKnown(w, x)
    ensures Drift(w, op, closed, key) != 0.0 <==> Skews(w, op, closed) && key == KeyOf(op.r.userID, op.r)
  {
    CreateDrift(w, op, closed, key);
  }

  lemma {:induction false} EndDriftsIff(w: World, op: Op, closed: set<TrainingId>, key: GaugeKey)
    requires WorldOk(w) && CanApply(w, op) && !op.CreateOp?
    ensures Drift(w, op, closed, key) != 0.0 <==> Skews(w, op, closed) && Counts(Terminated(w, op), key)
  {
    EndDrift(w, op, closed, key);
    if Terminated(w, op).Some? { GpusUsedIs(ResourcesOf(Terminated(w, op).value)); }
    assert !ChangeOf(w, op).Append?;
  }

  lemma {:induction false} DriftsIff(w: World, op: Op, closed: set<TrainingId>)
    requires WorldOk(w) && CanApply(w, op) && forall x | x in closed :: IsKnown(w, x)
    ensures (exists key :: Drift(w, op, closed, key) != 0.0) <==> Skews(w, op, closed)
  {
    if op.CreateOp? {
      CreateDriftsIff(w, op, closed, KeyOf(op.r.userID, op.r));
      forall key ensures Drift(w, op, closed, key) != 0.0 ==> Skews(w, op, closed) {
        CreateDriftsIff(w, op, closed, key);
      }
    } else {
      if Skews(w, op, closed) {
        var r := Terminated(w, op).value;
        EndDriftsIff(w, op, closed, KeyOf(r.userID, r));
      }
      forall key ensures Drift(w, op, closed, key) != 0.0 ==> Skews(w, op, closed) {
        EndDriftsIff(w, op, closed, key);
      }
    }
  }

  /** Main result: from a state in which every gauge shows the GPUs of the jobs that are not closed, a request leads to
      such a state again if and only if it does not skew the gauge. */
  lemma {:induction false} GaugeStaysExactIff(w: World, op: Op, closed: set<TrainingId>)
    requires WorldOk(w) && CanApply(w, op) && Balanced(w, closed)
    ensures Balanced(ApplyOp(w, op), Close(w, op, closed)) <==> !Skews(w, op, closed)
  {
    var w', closed' := ApplyOp(w, op), Close(w, op, closed);
    forall id | id in closed' ensures IsKnown(w', id) { StepKeepsClosed(w, op, closed, id); }
    forall key ensures GaugeAt(w'.gauge, key) == Outstanding(w'.docs, closed', key) + Drift(w, op, closed, key) {
      StepDrifts(w, op, closed, key);
    }
    DriftsIff(w, op, closed);
  }

  /** The jobs closed after the first `n` requests. */
  ghost function ClosedAt(ws: seq<World>, ops: seq<Op>, closed: set<TrainingId>, n: nat): set<TrainingId>
    requires Run(ws, ops) && n <= |ops|
  {
    if n == 0 then closed else Close(ws[n - 1], ops[n - 1], ClosedAt(ws, ops, closed, n - 1))
  }

  /** Main result: over any run of requests from such a state, the gauges show the GPUs of the jobs that got no terminal
      update, deleted ones included, after every request if and only if none skews them. */
  lemma {:induction false} GaugeShowsOutstanding(ws: seq<World>, ops: seq<Op>, closed: set<TrainingId>)
    requires Run(ws, ops) && Balanced(ws[0], closed)
    ensures (forall n: nat | n <= |ops| :: Balanced(ws[n], ClosedAt(ws, ops, closed, n)))
      <==> forall n: nat | n < |ops| :: !Skews(ws[n], ops[n], ClosedAt(ws, ops, closed, n))
  {
    if forall n: nat | n <= |ops| :: Balanced(ws[n], ClosedAt(ws, ops, closed, n)) {
      forall n: nat | n < |ops| ensures !Skews(ws[n], ops[n], ClosedAt(ws, ops, closed, n)) {
        assert Balanced(ws[n + 1], ClosedAt(ws, ops, closed, n + 1));
        GaugeStaysExactIff(ws[n], ops[n], ClosedAt(ws, ops, closed, n));
      }
    }
    if forall n: nat | n < |ops| :: !Skews(ws[n], ops[n], ClosedAt(ws, ops, closed, n)) {
      forall n: nat | n <= |ops| ensures Balanced(ws[n], ClosedAt(ws, ops, closed, n)) {
        UnskewedStaysBalanced(ws, ops, closed, n);
      }
    }
  }

  lemma {:induction false} UnskewedStaysBalanced(ws: seq<World>, ops: seq<Op>, closed: set<TrainingId>, n: nat)
    requires Run(ws, ops) && Balanced(ws[0], closed) && n <= |ops|
    requires forall i: nat | i < |ops| :: !Skews(ws[i], ops[i], ClosedAt(ws, ops, closed, i))
    ensures Balanced(ws[n], ClosedAt(ws, ops, closed, n))
  {
    if n > 0 {
      UnskewedStaysBalanced(ws, ops, closed, n - 1);
      NextBalanced(ws[n - 1], ops[n - 1], ws[n], ClosedAt(ws, ops, closed, n - 1), ClosedAt(ws, ops, closed, n));
    }
  }

  lemma {:induction false} NextBalanced(w: World, op: Op, w': World, closed: set<TrainingId>, closed': set<TrainingId>)
    requires WorldOk(w) && CanApply(w, op) && Balanced(w, closed) && !Skews(w, op, closed)
    requires w' == ApplyOp(w, op) && closed' == Close(w, op, closed)
    ensures Balanced(w', closed')
  {
    GaugeStaysExactIff(w, op, closed);
  }
}
