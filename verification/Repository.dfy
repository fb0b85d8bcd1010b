// trainingsRepository: training records with soft deletes, and the append-only status history.
module Repository {
  import opened Wrappers
  import opened JobStatus
  import opened Entries
  import opened Records
  import Protocol

  datatype RepoError = NotFound | MongoError

  // ---- queries, as functions of the collection ----

  /** `Find(selector).One` of queryDatabase: the first document of the training that is not soft-deleted. */
  function FindDoc(docs: seq<TrainingRecord>, id: TrainingId): (r: Option<TrainingRecord>)
    ensures r.None? <==> forall d | d in docs :: d.trainingID == id ==> d.deleted
    ensures r.Some? ==> r.value in docs && r.value.trainingID == id && !r.value.deleted
  {
    if docs == [] then None
    else if docs[0].trainingID == id && !docs[0].deleted then Some(docs[0])
    else FindDoc(docs[1..], id)
  }

  /** `Update({_id: k}, r)`: replaces the document with that `_id`. */
  function Replace(docs: seq<TrainingRecord>, k: nat, r: TrainingRecord): (s: seq<TrainingRecord>)
    ensures |s| == |docs|
    ensures forall i | 0 <= i < |docs| :: s[i] == if docs[i].docId == Some(k) then r else docs[i]
  {
    seq(|docs|, i requires 0 <= i < |docs| => if docs[i].docId == Some(k) then r else docs[i])
  }

  predicate Has(docs: seq<TrainingRecord>, k: nat) {
    exists d | d in docs :: d.docId == Some(k)
  }

  /** Store: an insert for a record without `_id`, an update by `_id` otherwise; None if there is no such document. */
  function StoreDoc(docs: seq<TrainingRecord>, newKey: nat, r: TrainingRecord): Option<seq<TrainingRecord>> {
    match r.docId
    case None => Some(docs + [r.(docId := Some(newKey))])
    case Some(k) => if Has(docs, k) then Some(Replace(docs, k, r)) else None
  }

  /** What a soft delete keeps of a record: neither data stores nor input data nor the status message. */
  function Remains(existing: TrainingRecord): (r: TrainingRecord)
    ensures r.deleted && r.trainingID == existing.trainingID && r.datastores == []
  {
    var framework := if existing.model.Some? then existing.model.value.framework else None;
    var resources := if existing.training.Some? then existing.training.value.resources else None;
    var status := if existing.status.Some? then existing.status.value.(message := "")
                  else TrainingStatus(NOT_STARTED, "", "", "", "", "", "", "");
    TrainingRecord(None, existing.trainingID, existing.userID, existing.jobID, Some(ModelDefinition(framework)),
                   Some(Training(resources, [], [])), [], Some(status), "", "", true)
  }

  /** The first document of a training, deleted or not; `|docs|` if there is none. */
  function IndexOf(docs: seq<TrainingRecord>, id: TrainingId): (i: nat)
    ensures i <= |docs|
    ensures i < |docs| ==> docs[i].trainingID == id
    ensures forall j | 0 <= j < i :: docs[j].trainingID != id
  {
    if docs == [] then 0
    else if docs[0].trainingID == id then 0
    else 1 + IndexOf(docs[1..], id)
  }

  /** `Upsert({training_id}, r)`: the replaced document keeps its `_id`. */
  function Upsert(docs: seq<TrainingRecord>, newKey: nat, r: TrainingRecord): seq<TrainingRecord> {
    var i := IndexOf(docs, r.trainingID);
    if i < |docs| then docs[i := r.(docId := docs[i].docId)] else docs + [r.(docId := Some(newKey))]
  }

  function SoftDelete(docs: seq<TrainingRecord>, newKey: nat, id: TrainingId): Option<seq<TrainingRecord>> {
    var existing := FindDoc(docs, id);
    if existing.None? then None else Some(Upsert(docs, newKey, Remains(existing.value)))
  }

  // ---- one document per training ----

  /** Every training has one document, with an `_id` of its own. */
  predicate Consistent(docs: seq<TrainingRecord>, nextKey: nat) {
    && (forall d | d in docs :: d.docId.Some? && d.docId.value < nextKey)
    && (forall i, j | 0 <= i < j < |docs| :: docs[i].trainingID != docs[j].trainingID && docs[i].docId != docs[j].docId)
  }

  /** The document of a training is the same, whichever way it is looked up. */
  lemma {:induction false} SameDoc(docs: seq<TrainingRecord>, nextKey: nat, d: TrainingRecord, e: TrainingRecord)
    requires Consistent(docs, nextKey) && d in docs && e in docs
    requires d.trainingID == e.trainingID || d.docId == e.docId
    ensures d == e
  {
  }

  // ---- the collection as the protocol sees it ----

  function DocOf(r: TrainingRecord): Protocol.Doc {
    Protocol.Doc(
      if r.status.Some? then r.status.value.status else NOT_STARTED,
      r.deleted,
      if r.training.Some? && r.training.value.inputData != [] then r.training.value.inputData[0] else "",
      seq(|r.datastores|, i requires 0 <= i < |r.datastores| => r.datastores[i].id))
  }

  ghost function View(docs: seq<TrainingRecord>, nextKey: nat): map<TrainingId, Protocol.Doc>
    requires Consistent(docs, nextKey)
  {
    map i | 0 <= i < |docs| :: docs[i].trainingID := DocOf(docs[i])
  }

  lemma {:induction false} ViewAt(docs: seq<TrainingRecord>, nextKey: nat, d: TrainingRecord)
    requires Consistent(docs, nextKey) && d in docs
    ensures d.trainingID in View(docs, nextKey) && View(docs, nextKey)[d.trainingID] == DocOf(d)
  {
  }

  /** A map that agrees with every document and has no other key is the view. */
  lemma {:induction false} ViewIs(docs: seq<TrainingRecord>, nextKey: nat, m: map<TrainingId, Protocol.Doc>)
    requires Consistent(docs, nextKey)
    requires forall i | 0 <= i < |docs| :: docs[i].trainingID in m && m[docs[i].trainingID] == DocOf(docs[i])
    requires forall id | id in m :: exists i | 0 <= i < |docs| :: docs[i].trainingID == id
    ensures View(docs, nextKey) == m
  {
  }

  /** Find returns a QUEUED record exactly when the protocol's Find step would. */
  lemma {:induction false} FindSeesLiveQueued(docs: seq<TrainingRecord>, nextKey: nat, id: TrainingId)
    requires Consistent(docs, nextKey)
    ensures var found := FindDoc(docs, id);
      (found.Some? && DocOf(found.value).status == QUEUED) <==> Protocol.LiveQueued(View(docs, nextKey), id)
  {
    var found := FindDoc(docs, id);
    if found.Some? {
      ViewAt(docs, nextKey, found.value);
    } else if id in View(docs, nextKey) {
      var i :| 0 <= i < |docs| && docs[i].trainingID == id;
      assert docs[i] in docs;
    }
  }

  /** Store of a record read from the collection is the protocol's write of one document. */
  lemma {:induction false} StoreIsOneWrite(docs: seq<TrainingRecord>, nextKey: nat, d: TrainingRecord,
                                           r: TrainingRecord)
    requires Consistent(docs, nextKey) && d in docs && r.docId == d.docId && r.trainingID == d.trainingID
    ensures StoreDoc(docs, nextKey, r) == Some(Replace(docs, d.docId.value, r))
    ensures Consistent(Replace(docs, d.docId.value, r), nextKey)
    ensures View(Replace(docs, d.docId.value, r), nextKey) == View(docs, nextKey)[d.trainingID := DocOf(r)]
  {
    var docs' := Replace(docs, d.docId.value, r);
    var k :| 0 <= k < |docs| && docs[k] == d;
    assert docs' == docs[k := r] by {
      forall i | 0 <= i < |docs| && i != k ensures docs'[i] == docs[i] {
        if i < k { assert docs[i].docId != docs[k].docId; } else { assert docs[k].docId != docs[i].docId; }
      }
    }
    ReplaceAt(docs, nextKey, k, r);
  }

  lemma {:induction false} ReplaceKeepsConsistent(docs: seq<TrainingRecord>, nextKey: nat, k: nat, r: TrainingRecord)
    requires Consistent(docs, nextKey) && k < |docs| && r.docId == docs[k].docId && r.trainingID == docs[k].trainingID
    ensures Consistent(docs[k := r], nextKey)
  {
  }

  lemma {:induction false} ReplaceAt(docs: seq<TrainingRecord>, nextKey: nat, k: nat, r: TrainingRecord)
    requires Consistent(docs, nextKey) && k < |docs| && r.docId == docs[k].docId && r.trainingID == docs[k].trainingID
    ensures Consistent(docs[k := r], nextKey)
    ensures View(docs[k := r], nextKey) == View(docs, nextKey)[r.trainingID := DocOf(r)]
  {
    ReplaceKeepsConsistent(docs, nextKey, k, r);
    var docs', m := docs[k := r], View(docs, nextKey)[r.trainingID := DocOf(r)];
    forall i | 0 <= i < |docs'| ensures docs'[i].trainingID in m && m[docs'[i].trainingID] == DocOf(docs'[i]) {
      if i != k {
        assert docs[i] in docs && docs[k] in docs;
        ViewAt(docs, nextKey, docs[i]);
      }
    }
    forall id | id in m ensures exists i | 0 <= i < |docs'| :: docs'[i].trainingID == id {
      if id == r.trainingID {
        assert docs'[k].trainingID == id;
      } else {
        var i :| 0 <= i < |docs| && docs[i].trainingID == id;
        assert docs'[i].trainingID == id;
      }
    }
    ViewIs(docs', nextKey, m);
  }

  lemma {:induction false} InsertKeepsConsistent(docs: seq<TrainingRecord>, nextKey: nat, r: TrainingRecord)
    requires Consistent(docs, nextKey) && r.docId == Some(nextKey)
    requires forall d | d in docs :: d.trainingID != r.trainingID
    ensures Consistent(docs + [r], nextKey + 1)
  {
  }

  lemma {:induction false} InsertIsOneWrite(docs: seq<TrainingRecord>, nextKey: nat, r: TrainingRecord)
    requires Consistent(docs, nextKey) && r.docId == None && forall d | d in docs :: d.trainingID != r.trainingID
    ensures var docs' := docs + [r.(docId := Some(nextKey))];
      && StoreDoc(docs, nextKey, r) == Some(docs')
      && Consistent(docs', nextKey + 1)
      && View(docs', nextKey + 1) == View(docs, nextKey)[r.trainingID := DocOf(r)]
  {
    var stored, m := r.(docId := Some(nextKey)), View(docs, nextKey)[r.trainingID := DocOf(r)];
    InsertKeepsConsistent(docs, nextKey, stored);
    var docs' := docs + [stored];
    forall i | 0 <= i < |docs'| ensures docs'[i].trainingID in m && m[docs'[i].trainingID] == DocOf(docs'[i]) {
      if i < |docs| {
        assert docs[i] in docs;
        ViewAt(docs, nextKey, docs[i]);
      }
    }
    forall id | id in m ensures exists i | 0 <= i < |docs'| :: docs'[i].trainingID == id {
      if id == r.trainingID {
        assert docs'[|docs|].trainingID == id;
      } else {
        var i :| 0 <= i < |docs| && docs[i].trainingID == id;
        assert docs'[i].trainingID == id;
      }
    }
    ViewIs(docs', nextKey + 1, m);
  }

  /** Delete of a visible record is the protocol's soft delete with the record's own status. */
  lemma {:induction false} DeleteIsOneWrite(docs: seq<TrainingRecord>, nextKey: nat, id: TrainingId)
    requires Consistent(docs, nextKey) && FindDoc(docs, id).Some?
    ensures var docs' := SoftDelete(docs, nextKey, id);
      && docs'.Some? && |docs'.value| == |docs| && Consistent(docs'.value, nextKey)
      && FindDoc(docs'.value, id).None?
      && View(docs'.value, nextKey)
         == View(docs, nextKey)[id := Protocol.Doc(DocOf(FindDoc(docs, id).value).status, true, "", [])]
  {
    var d := FindDoc(docs, id).value;
    var k := IndexOf(docs, id);
    var j :| 0 <= j < |docs| && docs[j] == d;
    assert docs[k] in docs;
    SameDoc(docs, nextKey, docs[k], d);
    var r := Remains(d).(docId := docs[k].docId);
    ReplaceAt(docs, nextKey, k, r);
    assert DocOf(r) == Protocol.Doc(DocOf(d).status, true, "", []);
    GoneWhenDeleted(docs[k := r], nextKey, k, id);
  }

  lemma {:induction false} GoneWhenDeleted(docs: seq<TrainingRecord>, nextKey: nat, k: nat, id: TrainingId)
    requires Consistent(docs, nextKey) && k < |docs| && docs[k].trainingID == id && docs[k].deleted
    ensures FindDoc(docs, id).None?
  {
    assert docs[k] in docs;
    if FindDoc(docs, id).Some? { SameDoc(docs, nextKey, FindDoc(docs, id).value, docs[k]); }
  }

  // ---- what a soft delete leaves ----

  /** Nothing but the document of one training is different. */
  predicate OnlyChanges(docs: seq<TrainingRecord>, docs': seq<TrainingRecord>, id: TrainingId) {
    |docs'| == |docs| && forall i | 0 <= i < |docs| && docs[i].trainingID != id :: docs'[i] == docs[i]
  }

  /** What is left of a deleted record: who ran what, on which resources, when, and how it ended. */
  predicate Stripped(d: TrainingRecord, d': TrainingRecord) {
    && d'.deleted && d'.docId == d.docId
    && d'.trainingID == d.trainingID && d'.userID == d.userID && d'.jobID == d.jobID
    && d'.datastores == [] && d'.evaluationMetrics == "" && d'.zone == ""
    && d'.training.Some? && d'.training.value.inputData == [] && d'.training.value.outputData == []
    && (d.training.Some? ==> d'.training.value.resources == d.training.value.resources)
    && d'.model.Some? && (d.model.Some? ==> d'.model.value.framework == d.model.value.framework)
    && d'.status.Some? && d'.status.value.message == ""
    && (d.status.Some? ==>
          var ts, ts' := d.status.value, d'.status.value;
          && ts'.status == ts.status && ts'.errorCode == ts.errorCode && ts'.submission == ts.submission
          && ts'.completion == ts.completion && ts'.downloadStart == ts.downloadStart
          && ts'.processStart == ts.processStart && ts'.storeStart == ts.storeStart)
  }

  /** The visible document of the training has given way to what is left of it, and no other is different. */
  predicate LeavesRemains(docs: seq<TrainingRecord>, docs': seq<TrainingRecord>, id: TrainingId) {
    && OnlyChanges(docs, docs', id) && FindDoc(docs, id).Some?
    && exists k | 0 <= k < |docs| :: docs[k] == FindDoc(docs, id).value && Stripped(docs[k], docs'[k])
  }

  /** Main result: a soft delete puts what is left of the visible document in its place, whatever parts the document
      had, and touches no other. */
  lemma {:induction false} DeleteStrips(docs: seq<TrainingRecord>, nextKey: nat, id: TrainingId) returns (k: nat)
    requires Consistent(docs, nextKey) && FindDoc(docs, id).Some?
    ensures SoftDelete(docs, nextKey, id).Some? && k < |docs| && docs[k] == FindDoc(docs, id).value
    ensures var docs' := SoftDelete(docs, nextKey, id).value;
      OnlyChanges(docs, docs', id) && Stripped(docs[k], docs'[k]) && LeavesRemains(docs, docs', id)
  {
    k := IndexOf(docs, id);
    assert docs[k] in docs;
    SameDoc(docs, nextKey, docs[k], FindDoc(docs, id).value);
  }

  class TrainingsRepository {
    var docs: seq<TrainingRecord>
    var nextKey: nat

    predicate Valid()
      reads this
    {
      Consistent(docs, nextKey)
    }

    /** A record without `_id` is inserted, one with `_id` replaces its document; an unknown `_id` is an error. */
    method Store(t: TrainingRecord, up: bool) returns (ok: bool)
      modifies this
      ensures ok <==> up && (t.docId.None? || Has(old(docs), t.docId.value))
      ensures ok ==> Some(docs) == StoreDoc(old(docs), old(nextKey), t)
      ensures !ok ==> docs == old(docs)
      ensures nextKey == if ok && t.docId.None? then old(nextKey) + 1 else old(nextKey)
    {
      if !up { return false; }
      match t.docId {
        case None =>
          docs := docs + [t.(docId := Some(nextKey))];
          nextKey := nextKey + 1;
        case Some(k) =>
          if !Has(docs, k) { return false; }
          docs := Replace(docs, k, t);
      }
      return true;
    }

    method Find(id: TrainingId, up: bool) returns (r: Result<TrainingRecord, RepoError>)
      ensures !up ==> r == Failure(MongoError)
      ensures up ==> r == (match FindDoc(docs, id) case None => Failure(NotFound) case Some(d) => Success(d))
    {
      if !up { return Failure(MongoError); }
      for i := 0 to |docs|
        invariant FindDoc(docs, id) == FindDoc(docs[i..], id)
      {
        if docs[i].trainingID == id && !docs[i].deleted { return Success(docs[i]); }
      }
      return Failure(NotFound);
    }

    /** A record without a status counts as NOT_STARTED. */
    method FindTrainingStatusID(id: TrainingId, up: bool) returns (r: Result<Status, RepoError>)
      ensures r.Success? ==> up && FindDoc(docs, id).Some? && r.value == DocOf(FindDoc(docs, id).value).status
      ensures up && FindDoc(docs, id).Some? ==> r.Success?
      ensures up && FindDoc(docs, id).None? ==> r == Failure(NotFound)
      ensures !up ==> r == Failure(MongoError)
    {
      var tr := Find(id, up);
      match tr
      case Failure(e) => return Failure(e);
      case Success(t) => return Success(if t.status.Some? then t.status.value.status else NOT_STARTED);
    }

    /** Soft delete: the document stays, marked deleted and stripped. */
    method Delete(id: TrainingId, findUp: bool, upsertUp: bool) returns (r: Result<bool, RepoError>)
      modifies this`docs
      ensures r.Success? <==> findUp && upsertUp && FindDoc(old(docs), id).Some?
      ensures r.Success? ==> Some(docs) == SoftDelete(old(docs), nextKey, id)
      ensures r.Success? && old(Valid()) ==> LeavesRemains(old(docs), docs, id)
      ensures r.Failure? ==> docs == old(docs)
      ensures findUp && FindDoc(old(docs), id).None? ==> r == Failure(NotFound)
    {
      var existing := Find(id, findUp);
      if existing.Failure? { return Failure(existing.error); }
      if !upsertUp { return Failure(MongoError); }
      if Valid() { var k := DeleteStrips(docs, nextKey, id); }
      docs := Upsert(docs, nextKey, Remains(existing.value));
      return Success(true);
    }
  }

  // ---- status history ----

  /** The upsert's selector: fields of `e` that are empty are omitted from it, except the training id. */
  predicate Matches(e: HistoryEntry, h: HistoryEntry) {
    && h.trainingID == e.trainingID
    && (e.timestamp != "" ==> h.timestamp == e.timestamp)
    && (e.status != NOT_STARTED ==> h.status == e.status)
    && (e.message != "" ==> h.message == e.message)
    && (e.errorCode != "" ==> h.errorCode == e.errorCode)
  }

  /** `Upsert(e, {$setOnInsert: e})`. */
  function Record(history: seq<HistoryEntry>, e: HistoryEntry): seq<HistoryEntry> {
    if exists h | h in history :: Matches(e, h) then history else history + [e]
  }

  /** After recording `e` some entry agrees with all its non-empty fields; no entry changes or vanishes; and recording
      any of the recorded entries again, after any further recording, changes nothing. */
  lemma {:induction false} HistoryIsIdempotentUpsert(history: seq<HistoryEntry>, e: HistoryEntry,
                                                     later: seq<HistoryEntry>)
    ensures var h := RecordAll(Record(history, e), later);
      && history <= h
      && (exists x | x in h :: Matches(e, x))
      && Record(h, e) == h
  {
    RecordAllGrows(Record(history, e), later);
    var h := RecordAll(Record(history, e), later);
    assert Matches(e, e) && (Record(history, e) == history + [e] ==> Record(history, e)[|history|] == e);
    var x :| x in Record(history, e) && Matches(e, x);
    var i :| 0 <= i < |Record(history, e)| && Record(history, e)[i] == x;
    assert h[i] == x;
  }

  /** The entry says of the training what `e` says; an empty field says nothing. */
  predicate SaysSame(h: HistoryEntry, e: HistoryEntry) {
    && h.trainingID == e.trainingID
    && (e.timestamp == "" || h.timestamp == e.timestamp)
    && (e.status == NOT_STARTED || h.status == e.status)
    && (e.message == "" || h.message == e.message)
    && (e.errorCode == "" || h.errorCode == e.errorCode)
  }

  predicate Said(history: seq<HistoryEntry>, e: HistoryEntry) {
    exists h | h in history :: SaysSame(h, e)
  }

  /** `e` comes last, unless an earlier entry says the same: then nothing is added. */
  predicate Tells(history: seq<HistoryEntry>, after: seq<HistoryEntry>, e: HistoryEntry) {
    Said(after, e) && after == if Said(history, e) then history else history + [e]
  }

  /** Main result: an event is added to the history exactly if no entry agrees with it on the training and on each of
      its non-empty fields. */
  lemma {:induction false} RecordTells(history: seq<HistoryEntry>, e: HistoryEntry)
    ensures Tells(history, Record(history, e), e)
  {
    assert forall h :: Matches(e, h) <==> SaysSame(h, e);
    if !Said(history, e) {
      assert (history + [e])[|history|] == e && SaysSame(e, e);
    }
  }

  function RecordAll(history: seq<HistoryEntry>, es: seq<HistoryEntry>): seq<HistoryEntry>
    decreases |es|
  {
    if es == [] then history else RecordAll(Record(history, es[0]), es[1..])
  }

  lemma {:induction false} RecordAllGrows(history: seq<HistoryEntry>, es: seq<HistoryEntry>)
    ensures history <= RecordAll(history, es)
    decreases |es|
  {
    if es != [] { RecordAllGrows(Record(history, es[0]), es[1..]); }
  }

  // ---- the history of one training ----

  /** `Find(selector)`: an empty id selects everything. */
  function EntriesOf(history: seq<HistoryEntry>, id: TrainingId): (r: seq<HistoryEntry>)
    ensures forall h :: h in r <==> h in history && (id == "" || h.trainingID == id)
  {
    if history == [] then []
    else
      var last, rest := history[|history| - 1], EntriesOf(history[..|history| - 1], id);
      assert history == history[..|history| - 1] + [last];
      if id == "" || last.trainingID == id then rest + [last] else rest
  }

  /** Each entry is selected as often as it was recorded. */
  lemma {:induction false} SelectedAsOften(history: seq<HistoryEntry>, id: TrainingId, h: HistoryEntry)
    ensures multiset(EntriesOf(history, id))[h]
      == if id == "" || h.trainingID == id then multiset(history)[h] else 0
  {
    if history != [] {
      SelectedAsOften(history[..|history| - 1], id, h);
      assert history == history[..|history| - 1] + [history[|history| - 1]];
    }
  }

  /** The order of strings, character by character. */
  predicate NotAfter(a: string, b: string) {
    a == "" || (b != "" && (a[0] < b[0] || (a[0] == b[0] && NotAfter(a[1..], b[1..]))))
  }

  /** One string comes before another if it is the beginning of it, or smaller at the first difference. */
  lemma {:induction false} NotAfterIff(a: string, b: string)
    ensures NotAfter(a, b) <==>
      a <= b || exists k :: 0 <= k < |a| && k < |b| && a[..k] == b[..k] && a[k] < b[k]
  {
    if a != "" && b != "" && a[0] == b[0] {
      NotAfterIff(a[1..], b[1..]);
      if k :| 0 <= k < |a| && k < |b| && a[..k] == b[..k] && a[k] < b[k] {
        assert k > 0 && a[1..][..k - 1] == a[..k][1..] && b[1..][..k - 1] == b[..k][1..];
        assert a[1..][k - 1] < b[1..][k - 1];
      }
      if k :| 0 <= k < |a[1..]| && k < |b[1..]| && a[1..][..k] == b[1..][..k] && a[1..][k] < b[1..][k] {
        assert a[..k + 1] == [a[0]] + a[1..][..k] && b[..k + 1] == [b[0]] + b[1..][..k] && a[k + 1] < b[k + 1];
      }
    } else if a != "" && b != "" && a[0] < b[0] {
      assert a[..0] == b[..0];
    }
  }

  lemma {:induction false} NotAfterTotal(a: string, b: string)
    ensures NotAfter(a, b) || NotAfter(b, a)
  {
    if a != "" && b != "" { NotAfterTotal(a[1..], b[1..]); }
  }

  lemma {:induction false} NotAfterTransitive(a: string, b: string, c: string)
    requires NotAfter(a, b) && NotAfter(b, c)
    ensures NotAfter(a, c)
  {
    if a != "" && a[0] == b[0] == c[0] { NotAfterTransitive(a[1..], b[1..], c[1..]); }
  }

  predicate SortedByTime(r: seq<HistoryEntry>) {
    forall i, j | 0 <= i < j < |r| :: NotAfter(r[i].timestamp, r[j].timestamp)
  }

  function InsertByTime(r: seq<HistoryEntry>, e: HistoryEntry): (s: seq<HistoryEntry>)
    ensures multiset(s) == multiset(r) + multiset{e}
  {
    if r == [] then [e]
    else
      var last, front := r[|r| - 1], r[..|r| - 1];
      assert r == front + [last];
      if NotAfter(last.timestamp, e.timestamp) then r + [e] else InsertByTime(front, e) + [last]
  }

  lemma {:induction false} InsertSorts(r: seq<HistoryEntry>, e: HistoryEntry)
    requires SortedByTime(r)
    ensures SortedByTime(InsertByTime(r, e))
  {
    if r != [] {
      var last, front := r[|r| - 1], r[..|r| - 1];
      if NotAfter(last.timestamp, e.timestamp) {
        forall i | 0 <= i < |r| ensures NotAfter(r[i].timestamp, e.timestamp) {
          if i < |r| - 1 { NotAfterTransitive(r[i].timestamp, last.timestamp, e.timestamp); }
        }
      } else {
        NotAfterTotal(last.timestamp, e.timestamp);
        InsertSorts(front, e);
        var s := InsertByTime(front, e);
        forall i | 0 <= i < |s| ensures NotAfter(s[i].timestamp, last.timestamp) {
          assert s[i] in multiset(s);
          if s[i] != e {
            assert s[i] in multiset(front);
            var k :| 0 <= k < |front| && front[k] == s[i];
            assert r[k] == s[i];
          }
        }
      }
    }
  }

  class JobHistoryRepository {
    var entries: seq<HistoryEntry>

    method RecordJobStatus(e: HistoryEntry, up: bool) returns (ok: bool)
      modifies this
      ensures ok == up && entries == if up then Record(old(entries), e) else old(entries)
      ensures ok ==> Tells(old(entries), entries, e)
    {
      if !up { return false; }
      RecordTells(entries, e);
      if forall h | h in entries :: !Matches(e, h) {
        entries := entries + [e];
      }
      return true;
    }

    /** All entries of a training, or of all trainings for the empty id, each as often as it was recorded and in the
        order of the timestamps. A failed query gives no entries and no error. */
    method GetJobStatusHistory(id: TrainingId, up: bool) returns (r: seq<HistoryEntry>)
      ensures up ==> multiset(r) == multiset(EntriesOf(entries, id)) && SortedByTime(r)
      ensures !up ==> r == []
    {
      r := [];
      if !up { return; }
      for i := 0 to |entries|
        invariant multiset(r) == multiset(EntriesOf(entries[..i], id)) && SortedByTime(r)
      {
        assert entries[..i + 1] == entries[..i] + [entries[i]];
        if id == "" || entries[i].trainingID == id {
          InsertSorts(r, entries[i]);
          r := InsertByTime(r, entries[i]);
        }
      }
      assert entries[..|entries|] == entries;
    }
  }
}
