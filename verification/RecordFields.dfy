// What requests leave in the database, field by field: of a record that is updated, halted, pulled or deleted, and of
// the status history.
module RecordFields {
  import opened Wrappers
  import opened JobStatus
  import opened Entries
  import opened Records
  import opened Repository
  import opened JobQueue
  import opened TrainerOps
  import opened TrainerRuns
  import opened PullTicks
  import TrainerResults

  // ---- updates ----

  /** The update finds an undeleted record of its user, is not a halt of a job that has ended, and is stored. */
  predicate Stores(w: World, req: UpdateRequest, a: UpdateAnswers)
    requires WorldOk(w)
  {
    var tr := FindDoc(w.docs, req.id);
    && a.find && a.store && tr.Some? && tr.value.userID == req.userID
    && !(req.status == HALTED && StatusOf(tr.value) in {COMPLETED, FAILED, HALTED})
  }

  /** The times and texts of the status after an update. */
  predicate StatusSet(ts: TrainingStatus, ts': TrainingStatus, req: UpdateRequest, now: string) {
    var time := if req.timestamp == "" then now else req.timestamp;
    && ts'.status == req.status && ts'.message == req.message && ts'.errorCode == req.errorCode
    && ts'.submission == ts.submission
    && ts'.completion == (if req.status in {COMPLETED, FAILED, HALTED} then time else ts.completion)
    && ts'.downloadStart == (if req.status == DOWNLOADING then time else ts.downloadStart)
    && ts'.processStart == (if req.status == PROCESSING then time else ts.processStart)
    && ts'.storeStart == (if req.status == STORING then time else ts.storeStart)
  }

  /** The rest of the record: an end takes the data stores and the image location away, and nothing else changes. */
  predicate RestKept(d: TrainingRecord, d': TrainingRecord, ended: bool)
    requires Complete(d) && Complete(d')
  {
    var f, f' := d.model.value.framework.value, d'.model.value.framework.value;
    && d'.docId == d.docId && d'.trainingID == d.trainingID && d'.userID == d.userID && d'.jobID == d.jobID
    && d'.training == d.training && d'.evaluationMetrics == d.evaluationMetrics && d'.zone == d.zone
    && d'.deleted == d.deleted && f'.name == f.name && f'.version == f.version
    && f'.imageLocation == (if ended then None else f.imageLocation)
    && d'.datastores == (if ended then [] else d.datastores)
  }

  lemma {:induction false} UpdatedSets(d: TrainingRecord, req: UpdateRequest, now: string)
    requires Complete(d)
    ensures StatusSet(d.status.value, Updated(d, req, now).status.value, req, now)
    ensures RestKept(d, Updated(d, req, now), req.status in {COMPLETED, FAILED, HALTED})
  {
  }

  /** In place of the document found, `d` is found. */
  lemma {:induction false} FoundAfterRewrite(docs: seq<TrainingRecord>, nextDoc: nat, id: TrainingId,
                                             d: TrainingRecord)
    requires Consistent(docs, nextDoc) && FindDoc(docs, id).Some? && !d.deleted
    requires d.trainingID == id && d.docId == FindDoc(docs, id).value.docId
    ensures var k := IndexOf(docs, id);
      k < |docs| && FindDoc(docs[k := d], id) == Some(d) && OnlyChanges(docs, docs[k := d], id)
  {
    var k := IndexOf(docs, id);
    FoundAt(docs, nextDoc, id);
    ReplaceKeepsConsistent(docs, nextDoc, k, d);
    assert docs[k := d][k] == d && d in docs[k := d];
    SameDoc(docs[k := d], nextDoc, d, FindDoc(docs[k := d], id).value);
  }

  /** Main result: an update that is stored sets status, message, error code and the one time that goes with its status,
      takes data stores and image location away if the job has ended, and changes nothing else; an update that is not
      stored changes no record. */
  lemma {:induction false} UpdateSetsFields(w: World, req: UpdateRequest, now: string, a: UpdateAnswers)
    requires WorldOk(w)
    ensures var docs' := Update(w, req, now, a).0.docs;
      && (!Stores(w, req, a) ==> docs' == w.docs)
      && (Stores(w, req, a) ==>
            var d, d' := FindDoc(w.docs, req.id).value, FindDoc(docs', req.id);
            && d'.Some? && Complete(d'.value) && OnlyChanges(w.docs, docs', req.id)
            && StatusSet(d.status.value, d'.value.status.value, req, now)
            && RestKept(d, d'.value, req.status in {COMPLETED, FAILED, HALTED}))
  {
    UpdateDocs(w, req, now, a);
    if Stores(w, req, a) {
      var d := FindDoc(w.docs, req.id).value;
      UpdatedSets(d, req, now);
      FoundAfterRewrite(w.docs, w.nextDoc, req.id, Updated(d, req, now));
    }
  }

  /** Main result: an update that is stored and read back tells the history of it if the status is another than before,
      and every time if it is PROCESSING; any other update leaves the history alone. */
  lemma {:induction false} UpdateTellsHistory(w: World, req: UpdateRequest, now: string, a: UpdateAnswers)
    requires WorldOk(w)
    ensures var history' := Update(w, req, now, a).0.history;
      var time := if req.timestamp == "" then now else req.timestamp;
      if Stores(w, req, a) && a.verify && a.history
         && (req.status == PROCESSING || StatusOf(FindDoc(w.docs, req.id).value) != req.status)
      then Tells(w.history, history', HistoryEntry(req.id, time, req.status, req.message, req.errorCode))
      else history' == w.history
  {
    var time := if req.timestamp == "" then now else req.timestamp;
    UpdateWrites(w, req, now, a);
    RecordTells(w.history, HistoryEntry(req.id, time, req.status, req.message, req.errorCode));
  }

  lemma {:induction false} UpdateWrites(w: World, req: UpdateRequest, now: string, a: UpdateAnswers)
    requires WorldOk(w)
    ensures Update(w, req, now, a).0.history ==
      if Stores(w, req, a) && a.verify
      then HistoryAfter(w, req, StatusOf(FindDoc(w.docs, req.id).value), now, a.history) else w.history
  {
    if Stores(w, req, a) && a.verify { StoredWrites(w, req, now, a); } else { OthersWriteNothing(w, req, now, a); }
  }

  lemma {:induction false} StoredWrites(w: World, req: UpdateRequest, now: string, a: UpdateAnswers)
    requires WorldOk(w) && Stores(w, req, a) && a.verify
    ensures Update(w, req, now, a).0.history
      == HistoryAfter(w, req, StatusOf(FindDoc(w.docs, req.id).value), now, a.history)
  {
    TrainerResults.UpdateWritesHistory(w, req, now, a);
  }

  lemma {:induction false} OthersWriteNothing(w: World, req: UpdateRequest, now: string, a: UpdateAnswers)
    requires WorldOk(w) && !(Stores(w, req, a) && a.verify)
    ensures Update(w, req, now, a).0.history == w.history
  {
  }

  /** What an update answers: success exactly if it is stored and read back, or is a halt of a job that has ended. */
  lemma {:induction false} UpdateResponds(w: World, req: UpdateRequest, now: string, a: UpdateAnswers)
    requires WorldOk(w)
    ensures var tr, r := FindDoc(w.docs, req.id), Update(w, req, now, a).1;
      if !a.find then r == Failure(Unavailable)
      else if tr.None? then r == Failure(Error.NotFound)
      else if tr.value.userID != req.userID then r == Failure(PermissionDenied)
      else if req.status == HALTED && StatusOf(tr.value) in {COMPLETED, FAILED, HALTED} then r == Success(None)
      else if a.store && a.verify then r == Success(Some(req.id))
      else r == Failure(Unavailable)
  {
    if Stores(w, req, a) { StoredResponds(w, req, now, a); }
  }

  lemma {:induction false} StoredResponds(w: World, req: UpdateRequest, now: string, a: UpdateAnswers)
    requires WorldOk(w) && Stores(w, req, a)
    ensures Update(w, req, now, a).1 == if a.verify then Success(Some(req.id)) else Failure(Unavailable)
  {
    TrainerResults.ReadBack(w, req, now);
  }

  // ---- halts ----

  /** A halt of a running job that gets through leaves HALTED, the text and code for a halt, and the time of it. */
  lemma {:induction false} HaltSetsFields(w: World, id: TrainingId, userID: string, kill: KillAnswer, now: string,
                                          a: UpdateAnswers)
    requires WorldOk(w) && FindDoc(w.docs, id).Some? && FindDoc(w.docs, id).value.userID == userID
    requires kill != KillFailed && a.find && a.store
    requires StatusOf(FindDoc(w.docs, id).value) !in {COMPLETED, FAILED, HALTED}
    ensures var d, (w', r) := FindDoc(w.docs, id).value, Halt(w, id, userID, true, kill, now, a);
      var d' := FindDoc(w'.docs, id);
      && d'.Some? && Complete(d'.value) && RestKept(d, d'.value, true)
      && d'.value.status.value == d.status.value.(status := HALTED, message := "Halted by user", errorCode := "0",
                                                  completion := now)
      && (a.verify ==> r == Success(HaltResponse(d.jobID, userID, HALTED)))
      && (a.verify && a.history ==>
            Tells(w.history, w'.history, HistoryEntry(id, now, HALTED, "Halted by user", "0")))
  {
    var req := HaltRequest(id, userID);
    UpdateSetsFields(w, req, now, a);
    UpdateTellsHistory(w, req, now, a);
    UpdateResponds(w, req, now, a);
  }

  /** What a halt answers; a failed kill, and a halt that may not be or finds nothing, changes nothing. */
  lemma {:induction false} HaltResponds(w: World, id: TrainingId, userID: string, up: bool, kill: KillAnswer,
                                        now: string, a: UpdateAnswers)
    requires WorldOk(w)
    ensures var tr, (w', r) := FindDoc(w.docs, id), Halt(w, id, userID, up, kill, now, a);
      if !up then w' == w && r == Failure(Unavailable)
      else if tr.None? then w' == w && r == Failure(Error.NotFound)
      else if tr.value.userID != userID then w' == w && r == Failure(PermissionDenied)
      else if kill == KillFailed then w' == w && r == Failure(Unavailable)
      else if a.find && (StatusOf(tr.value) in {COMPLETED, FAILED, HALTED} || (a.store && a.verify))
      then r == Success(HaltResponse(tr.value.jobID, userID, HALTED))
      else r == Failure(Unavailable)
  {
    UpdateResponds(w, HaltRequest(id, userID), now, a);
  }

  // ---- pulls ----

  /** The round reads a waiting job, is let through and stores it. */
  predicate StoresHead(w: World, q: QueueName, a: RoundAnswers)
    requires WorldOk(w)
  {
    var jobs := Jobs(w.entries, q);
    && a.lock && a.size && jobs != [] && a.peek && jobs[0].id != "" && a.find && !a.limiter.Limited?
    && WaitsInQueue(w.docs, jobs[0].id) && a.submit.config && a.submit.store
  }

  lemma {:induction false} RoundRewrites(w: World, q: QueueName, a: RoundAnswers)
    requires WorldOk(w) && StoresHead(w, q, a)
    ensures var id := Jobs(w.entries, q)[0].id;
      var k, d := IndexOf(w.docs, id), FindDoc(w.docs, id).value;
      k < |w.docs| && Round(w, q, a).0.docs == w.docs[k := d.(
        status := Some(d.status.value.(status := PENDING)),
        zone := if a.limiter.Allowed? then a.limiter.zone else "")]
  {
    FoundAt(w.docs, w.nextDoc, Jobs(w.entries, q)[0].id);
    RoundDocs(w, RoundOp(q, a));
  }

  /** Main result: the record a round stores differs from the one it read in the status, which is PENDING, and in the
      zone the rate limiter gave. */
  lemma {:induction false} RoundSetsFields(w: World, q: QueueName, a: RoundAnswers)
    requires WorldOk(w) && StoresHead(w, q, a)
    ensures var id, docs' := Jobs(w.entries, q)[0].id, Round(w, q, a).0.docs;
      && OnlyChanges(w.docs, docs', id)
      && FindDoc(docs', id) == Some(FindDoc(w.docs, id).value.(
           status := Some(FindDoc(w.docs, id).value.status.value.(status := PENDING)),
           zone := if a.limiter.Allowed? then a.limiter.zone else ""))
  {
    var id := Jobs(w.entries, q)[0].id;
    var d := FindDoc(w.docs, id).value;
    RoundRewrites(w, q, a);
    FoundAfterRewrite(w.docs, w.nextDoc, id, d.(status := Some(d.status.value.(status := PENDING)),
                                                zone := if a.limiter.Allowed? then a.limiter.zone else ""));
  }

  /** A round tells the history of the job that it has deployed, and of no other. */
  lemma {:induction false} RoundTellsHistory(w: World, q: QueueName, a: RoundAnswers)
    requires WorldOk(w)
    ensures var history' := Round(w, q, a).0.history;
      if Deploys(w, q, a) && a.history then
        var ts := FindDoc(w.docs, Jobs(w.entries, q)[0].id).value.status.value;
        Tells(w.history, history',
              HistoryEntry(Jobs(w.entries, q)[0].id, a.now, PENDING, ts.message, ts.errorCode))
      else history' == w.history
  {
    if Deploys(w, q, a) && a.history {
      DeployedIsRecorded(w, q, a);
      var id := Jobs(w.entries, q)[0].id;
      var ts := FindDoc(w.docs, id).value.status.value;
      RecordTells(w.history, HistoryEntry(id, a.now, PENDING, ts.message, ts.errorCode));
    }
  }

  predicate Deploys(w: World, q: QueueName, a: RoundAnswers)
    requires WorldOk(w)
  {
    StoresHead(w, q, a) && a.submit.client && a.submit.deploy
  }

  lemma {:induction false} DeployedIsRecorded(w: World, q: QueueName, a: RoundAnswers)
    requires WorldOk(w) && Deploys(w, q, a) && a.history
    ensures var id := Jobs(w.entries, q)[0].id;
      var ts := FindDoc(w.docs, id).value.status.value;
      Round(w, q, a).0.history == Record(w.history, HistoryEntry(id, a.now, PENDING, ts.message, ts.errorCode))
  {
    FoundAt(w.docs, w.nextDoc, Jobs(w.entries, q)[0].id);
  }

  /** The round reads the entry of a job that has no QUEUED record. */
  predicate ReadsStale(w: World, q: QueueName, a: RoundAnswers)
    requires WorldOk(w)
  {
    var jobs := Jobs(w.entries, q);
    && a.lock && a.size && jobs != [] && a.peek && jobs[0].id != "" && a.find
    && !WaitsInQueue(w.docs, jobs[0].id)
  }

  /** Main result: a round sends the job it has stored if LCM can be reached, takes its entry off the queue if LCM took
      it and both queries succeed, and then goes on unless the rate limiter could not be reached; it takes a stale entry
      off if both queries succeed; and no other round does any of this. */
  lemma {:induction false} RoundMoves(w: World, q: QueueName, a: RoundAnswers)
    requires WorldOk(w)
    ensures var (w', again) := Round(w, q, a);
      && (again <==> Deploys(w, q, a) && a.limiter.Allowed?)
      && w'.deployed == (if StoresHead(w, q, a) && a.submit.client then w.deployed + [Jobs(w.entries, q)[0].id]
                         else w.deployed)
      && w'.entries == (if (Deploys(w, q, a) && a.dequeueFind && a.dequeueRemove)
                           || (ReadsStale(w, q, a) && a.queueFind && a.queueRemove)
                        then RemoveEntry(w.entries, Jobs(w.entries, q)[0].key) else w.entries)
      && w'.gauge == w.gauge
  {
    if StoresHead(w, q, a) {
      StoredMoves(w, q, a);
    } else {
      OtherMoves(w, q, a);
    }
  }

  lemma {:induction false} StoredMoves(w: World, q: QueueName, a: RoundAnswers)
    requires WorldOk(w) && StoresHead(w, q, a)
    ensures var (w', again) := Round(w, q, a);
      && (again <==> Deploys(w, q, a) && a.limiter.Allowed?)
      && w'.deployed == (if a.submit.client then w.deployed + [Jobs(w.entries, q)[0].id] else w.deployed)
      && w'.entries == (if Deploys(w, q, a) && a.dequeueFind && a.dequeueRemove
                        then RemoveEntry(w.entries, Jobs(w.entries, q)[0].key) else w.entries)
      && w'.gauge == w.gauge
  {
    FoundAt(w.docs, w.nextDoc, Jobs(w.entries, q)[0].id);
  }

  lemma {:induction false} OtherMoves(w: World, q: QueueName, a: RoundAnswers)
    requires WorldOk(w) && !StoresHead(w, q, a)
    ensures var (w', again) := Round(w, q, a);
      && !again && w'.deployed == w.deployed && w'.gauge == w.gauge
      && w'.entries == (if ReadsStale(w, q, a) && a.queueFind && a.queueRemove
                        then RemoveEntry(w.entries, Jobs(w.entries, q)[0].key) else w.entries)
  {
  }

  // ---- deletes ----

  /** The delete request: who may delete, and what is answered and left of the records. */
  lemma {:induction false} DeleteRequestStrips(w: World, id: TrainingId, userID: string, q: QueueName, a: DeleteAnswers)
    requires WorldOk(w)
    ensures var tr, (w', r) := FindDoc(w.docs, id), Delete(w, id, userID, q, a);
      && (r.Success? <==> a.get && a.find && a.upsert && tr.Some? && tr.value.userID == userID)
      && (r.Success? ==> r.value == tr.value.jobID && OnlyChanges(w.docs, w'.docs, id) && FindDoc(w'.docs, id).None?
                         && exists d' | d' in w'.docs :: Stripped(tr.value, d'))
      && (r.Failure? ==> w'.docs == w.docs)
      && (r == Failure(PermissionDenied) <==> a.get && tr.Some? && tr.value.userID != userID)
      && w'.history == w.history && w'.gauge == w.gauge && w'.deployed == w.deployed
  {
    if FindDoc(w.docs, id).Some? {
      var k := DeleteStrips(w.docs, w.nextDoc, id);
      DeleteIsOneWrite(w.docs, w.nextDoc, id);
      assert SoftDelete(w.docs, w.nextDoc, id).value[k] in SoftDelete(w.docs, w.nextDoc, id).value;
    }
  }
  /** The delete takes one entry of a QUEUED job off the queue, if there is one, everything answers and the user may
      delete; it does so even if the record cannot be deleted after that. */
  lemma {:induction false} DeleteTakesEntry(w: World, id: TrainingId, userID: string, q: QueueName, a: DeleteAnswers)
    requires WorldOk(w)
    ensures var tr, w' := FindDoc(w.docs, id), Delete(w, id, userID, q, a).0;
      if a.get && tr.Some? && tr.value.userID == userID && StatusOf(tr.value) == QUEUED
         && a.lock && a.queueFind && a.queueRemove && exists e | e in Jobs(w.entries, q) :: e.id == id
      then exists e | e in Jobs(w.entries, q) :: e.id == id && w'.entries == RemoveEntry(w.entries, e.key)
      else w'.entries == w.entries
  {
    var e := EntryOf(w.entries, q, id);
    assert e.Some? ==> e.value in Jobs(w.entries, q);
  }
}
