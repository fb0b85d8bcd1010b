// TrainingJobQueue: a FIFO of training ids in one Mongo collection, guarded by a lease in another.
// Whether Mongo answers a query is a parameter of each operation.
module JobQueue {
  import opened Wrappers
  import opened Entries

  datatype QueueError = QueueIsEmpty | MongoError | LockHeld

  /** The queue and lock collections of the database, shared by every trainer, and the clock. */
  class Database {
    var entries: seq<Entry>
    var leases: set<Lease>
    var nextKey: nat
    var nextLease: nat
    var now: nat

    /** Inserts happen in clock order. */
    predicate Valid()
      reads this
    {
      && EntriesValid(entries, nextKey, now)
      && (forall l | l in leases :: l.key < nextLease)
      && OneLeasePerQueue(leases)
    }

    /** Time passes and other trainers use the lock collection; in a `quiet` database they only purge expired leases.
        Callers know no more than this contract. */
    method Sleep(seconds: nat, quiet: bool)
      requires Valid()
      modifies `now, `leases, `nextLease
      ensures Valid() && now >= old(now) + seconds && nextLease >= old(nextLease)
      ensures quiet ==> leases <= old(leases) && forall l | l in old(leases) && now <= l.expires :: l in leases
    {
      now := now + seconds;
    }
  }

  predicate InOrder(entries: seq<Entry>) {
    forall i, j | 0 <= i < j < |entries| ::
      entries[i].key < entries[j].key && entries[i].submitted <= entries[j].submitted
  }

  predicate EntriesValid(entries: seq<Entry>, nextKey: nat, now: nat) {
    InOrder(entries) && forall e | e in entries :: e.key < nextKey && e.submitted <= now
  }

  lemma {:induction false} SplitInOrder(front: seq<Entry>, last: Entry)
    requires InOrder(front + [last])
    ensures InOrder(front) && forall e | e in front :: e.key < last.key && e.submitted <= last.submitted
  {
    var all := front + [last];
    forall i, j | 0 <= i < j < |front| ensures front[i].key < front[j].key && front[i].submitted <= front[j].submitted {
      assert all[i] == front[i] && all[j] == front[j];
    }
    forall e | e in front ensures e.key < last.key && e.submitted <= last.submitted {
      var i :| 0 <= i < |front| && front[i] == e;
      assert all[i] == e && all[|front|] == last;
    }
  }

  lemma {:induction false} AppendInOrder(front: seq<Entry>, last: Entry)
    requires InOrder(front) && forall e | e in front :: e.key < last.key && e.submitted <= last.submitted
    ensures InOrder(front + [last])
  {
  }

  /** Entries of one queue keep the database's order. */
  lemma {:induction false} JobsInOrder(entries: seq<Entry>, q: QueueName)
    requires InOrder(entries)
    ensures InOrder(Jobs(entries, q))
  {
    if entries != [] {
      var last, front := entries[|entries| - 1], entries[..|entries| - 1];
      assert entries == front + [last];
      SplitInOrder(front, last);
      JobsInOrder(front, q);
      AppendInOrder(Jobs(front, q), last);
    }
  }

  lemma {:induction false} RemoveInOrder(entries: seq<Entry>, key: nat)
    requires InOrder(entries)
    ensures InOrder(RemoveEntry(entries, key))
  {
    if entries != [] {
      var last, front := entries[|entries| - 1], entries[..|entries| - 1];
      assert entries == front + [last];
      SplitInOrder(front, last);
      RemoveInOrder(front, key);
      AppendInOrder(RemoveEntry(front, key), last);
    }
  }

  /** Sorting by submission time finds the entry that was inserted first. */
  lemma {:induction false} EarliestIsFirst(entries: seq<Entry>, q: QueueName)
    requires InOrder(entries)
    ensures Earliest(entries, q) == if Jobs(entries, q) == [] then None else Some(Jobs(entries, q)[0])
  {
    var jobs := Jobs(entries, q);
    JobsInOrder(entries, q);
    if jobs != [] {
      var first := jobs[0];
      assert first in jobs;
      var e := Earliest(entries, q).value;
      assert e in jobs;
      var k :| 0 <= k < |jobs| && jobs[k] == e;
      assert Precedes(e, first);
    }
  }

  lemma {:induction false} RemoveAbsent(entries: seq<Entry>, key: nat)
    requires forall e | e in entries :: e.key != key
    ensures RemoveEntry(entries, key) == entries
  {
    if entries != [] {
      var last, front := entries[|entries| - 1], entries[..|entries| - 1];
      assert entries == front + [last];
      RemoveAbsent(front, key);
    }
  }

  lemma {:induction false} KeysDistinct(entries: seq<Entry>, e: Entry, f: Entry)
    requires InOrder(entries) && e in entries && f in entries && e.key == f.key
    ensures e == f
  {
  }

  lemma {:induction false} RemoveFirst(jobs: seq<Entry>)
    requires InOrder(jobs) && jobs != []
    ensures RemoveEntry(jobs, jobs[0].key) == jobs[1..]
  {
    var first, rest := jobs[0], jobs[1..];
    forall e | e in rest ensures e.key != first.key {
      var i :| 0 <= i < |rest| && rest[i] == e;
      assert jobs[i + 1] == e;
    }
    RemovePrepended(first, rest);
    assert jobs == [first] + rest;
  }

  lemma {:induction false} RemovePrepended(first: Entry, rest: seq<Entry>)
    requires forall e | e in rest :: e.key != first.key
    ensures RemoveEntry([first] + rest, first.key) == rest
    decreases |rest|
  {
    if rest == [] {
      assert [first] + rest == [] + [first];
      RemoveAppend([], first, first.key);
    } else {
      var last, front := rest[|rest| - 1], rest[..|rest| - 1];
      var whole := [first] + front;
      assert rest == front + [last] && [first] + rest == whole + [last];
      assert last in rest;
      forall e | e in front ensures e.key != first.key { assert e in rest; }
      RemovePrepended(first, front);
      RemoveAppend(whole, last, first.key);
    }
  }

  /** What removing one entry does to each queue. */
  lemma {:induction false} RemovalEffect(entries: seq<Entry>, e: Entry, nextKey: nat, now: nat)
    requires EntriesValid(entries, nextKey, now) && e in entries
    ensures var rest := RemoveEntry(entries, e.key);
      && EntriesValid(rest, nextKey, now)
      && Jobs(rest, e.queue) == RemoveEntry(Jobs(entries, e.queue), e.key)
      && forall q | q != e.queue :: Jobs(rest, q) == Jobs(entries, q)
  {
    RemoveInOrder(entries, e.key);
    JobsRemove(entries, e.key, e.queue);
    forall q | q != e.queue ensures Jobs(RemoveEntry(entries, e.key), q) == Jobs(entries, q) {
      JobsRemove(entries, e.key, q);
      forall f | f in Jobs(entries, q) ensures f.key != e.key {
        if f.key == e.key { KeysDistinct(entries, e, f); }
      }
      RemoveAbsent(Jobs(entries, q), e.key);
    }
  }

  /** Dequeue: the entry Sort finds is the first job, and removing it leaves the others in order. */
  lemma {:induction false} DequeueEffect(entries: seq<Entry>, q: QueueName)
    requires InOrder(entries) && Jobs(entries, q) != []
    ensures var e := Jobs(entries, q)[0];
      && Earliest(entries, q) == Some(e) && e in entries && e.queue == q
      && RemoveEntry(Jobs(entries, q), e.key) == Jobs(entries, q)[1..]
  {
    EarliestIsFirst(entries, q);
    assert Jobs(entries, q)[0] in Jobs(entries, q);
    JobsInOrder(entries, q);
    RemoveFirst(Jobs(entries, q));
  }

  class TrainingJobQueue {
    const db: Database
    const collection: QueueName
    const queueID: TrainerId

    constructor (db: Database, collection: QueueName, queueID: TrainerId)
      ensures this.db == db && this.collection == collection && this.queueID == queueID
    {
      this.db := db;
      this.collection := collection;
      this.queueID := queueID;
    }

    /** The queued jobs, first in first. */
    function Contents(): seq<Entry>
      reads db
    {
      Jobs(db.entries, collection)
    }

    method Enqueue(id: TrainingId, up: bool) returns (ok: bool)
      requires db.Valid()
      modifies db`entries, db`nextKey
      ensures db.Valid() && ok == up
      ensures ok ==> db.entries == old(db.entries) + [Entry(old(db.nextKey), collection, id, db.now)]
                     && db.nextKey == old(db.nextKey) + 1
      ensures ok ==> Contents() == old(Contents()) + [Entry(old(db.nextKey), collection, id, db.now)]
      ensures !ok ==> db.entries == old(db.entries) && db.nextKey == old(db.nextKey)
      ensures forall q | q != collection :: Jobs(db.entries, q) == old(Jobs(db.entries, q))
    {
      if up {
        var e := Entry(db.nextKey, collection, id, db.now);
        forall q ensures Jobs(db.entries + [e], q) ==
          if q == collection then Jobs(db.entries, q) + [e] else Jobs(db.entries, q) {
          JobsAppend(db.entries, e, q);
        }
        db.entries := db.entries + [e];
        db.nextKey := db.nextKey + 1;
      }
      ok := up;
    }

    /** A query that fails for another reason than an empty queue is not reported: the id is then empty. */
    method Peek(up: bool) returns (r: Result<TrainingId, QueueError>)
      requires db.Valid()
      ensures !up ==> r == Success("")
      ensures up ==> r == if Contents() == [] then Failure(QueueIsEmpty) else Success(Contents()[0].id)
    {
      EarliestIsFirst(db.entries, collection);
      if !up { return Success(""); }
      var entry := Earliest(db.entries, collection);
      if entry.None? { return Failure(QueueIsEmpty); }
      return Success(entry.value.id);
    }

    /** `Remove({_id: e.key})` on the queue collection. */
    method Remove(e: Entry)
      requires db.Valid() && e in db.entries && e.queue == collection
      modifies db`entries
      ensures db.Valid() && db.entries == RemoveEntry(old(db.entries), e.key)
      ensures Contents() == RemoveEntry(old(Contents()), e.key)
      ensures forall q | q != collection :: Jobs(db.entries, q) == old(Jobs(db.entries, q))
    {
      RemovalEffect(db.entries, e, db.nextKey, db.now);
      db.entries := RemoveEntry(db.entries, e.key);
    }

    method Dequeue(findUp: bool, removeUp: bool) returns (r: Result<TrainingId, QueueError>)
      requires db.Valid()
      modifies db`entries
      ensures db.Valid()
      ensures r.Success? <==> findUp && removeUp && old(Contents()) != []
      ensures r.Success? ==> r.value == old(Contents())[0].id && Contents() == old(Contents())[1..]
      ensures r.Success? ==> db.entries == RemoveEntry(old(db.entries), old(Contents())[0].key)
      ensures r.Failure? ==> db.entries == old(db.entries)
      ensures r.Failure? && findUp && old(Contents()) == [] ==> r.error == QueueIsEmpty
      ensures forall q | q != collection :: Jobs(db.entries, q) == old(Jobs(db.entries, q))
    {
      if !findUp { return Failure(MongoError); }
      EarliestIsFirst(db.entries, collection);
      var entry := Earliest(db.entries, collection);
      if entry.None? { return Failure(QueueIsEmpty); }
      if !removeUp { return Failure(MongoError); }
      DequeueEffect(db.entries, collection);
      Remove(entry.value);
      return Success(entry.value.id);
    }

    /** Removes the first entry of the job, wherever it stands. */
    method Delete(id: TrainingId, findUp: bool, removeUp: bool) returns (r: Result<bool, QueueError>)
      requires db.Valid()
      modifies db`entries
      ensures db.Valid()
      ensures findUp && (forall e | e in old(Contents()) :: e.id != id) ==> r == Success(false)
      ensures r == Success(true) <==> findUp && removeUp && exists e | e in old(Contents()) :: e.id == id
      ensures r == Success(true) ==>
        var e := FirstWithId(old(Contents()), id).value;
        db.entries == RemoveEntry(old(db.entries), e.key) && Contents() == RemoveEntry(old(Contents()), e.key)
      ensures r != Success(true) ==> db.entries == old(db.entries)
      ensures forall q | q != collection :: Jobs(db.entries, q) == old(Jobs(db.entries, q))
    {
      if !findUp { return Failure(MongoError); }
      var entry := FirstWithId(Contents(), id);
      if entry.None? { return Success(false); }
      if !removeUp { return Failure(MongoError); }
      Remove(entry.value);
      return Success(true);
    }

    /** The number of documents in this queue's collection, as Mongo counts them. */
    method Size(up: bool) returns (r: Result<nat, QueueError>)
      ensures r == if up then Success(|Contents()|) else Failure(MongoError)
    {
      if !up { return Failure(MongoError); }
      var n := 0;
      for i := 0 to |db.entries|
        invariant n == |Jobs(db.entries[..i], collection)|
      {
        assert db.entries[..i + 1] == db.entries[..i] + [db.entries[i]];
        JobsAppend(db.entries[..i], db.entries[i], collection);
        if db.entries[i].queue == collection { n := n + 1; }
      }
      assert db.entries[..|db.entries|] == db.entries;
      return Success(n);
    }

    method Empty(up: bool) returns (empty: bool, ok: bool)
      ensures ok == up && (up ==> (empty <==> Contents() == [])) && (!up ==> empty)
    {
      var size := Size(up);
      match size
      case Success(n) => empty, ok := n == 0, true;
      case Failure(_) => empty, ok := true, false;
    }

    /** The lease is ours and the only one on this queue. */
    predicate Held(l: Lease)
      reads db
    {
      l in db.leases && l.queue == collection && l.owner == queueID
      && forall m | m in db.leases && m.queue == collection :: m == l
    }

    /** Lock makes up to 15 attempts, 5 seconds apart, and takes no lease away that has not expired: neither by its
        first attempt nor, if nobody else does, by a later one. In a quiet database, where inserts succeed and nobody
        else takes the lease, a lease taken no later than the call started is taken over by the 14th attempt at the
        latest. */
    method Lock(quiet: bool) returns (r: Result<Lease, QueueError>, attempts: nat)
      requires db.Valid()
      modifies db`leases, db`nextLease, db`now
      ensures db.Valid()
      ensures 1 <= attempts <= LOCK_RETRIES
      ensures db.now >= old(db.now) + LOCK_RETRY_DELAY * (attempts - 1)
      ensures r.Success? ==> Held(r.value) && r.value.expires == db.now + LOCK_EXPIRATION
      ensures r.Success? ==> r.value.key >= old(db.nextLease)
      ensures attempts == 1 && r.Success? ==>
        db.now == old(db.now) && forall l | l in old(db.leases) && l.queue == collection :: l.expires < db.now
      ensures quiet ==> forall l | l in old(db.leases) && db.now <= l.expires :: l in db.leases
      ensures r.Failure? ==> attempts == LOCK_RETRIES && db.now >= old(db.now) + LOCK_RETRIES * LOCK_RETRY_DELAY
      ensures quiet && (forall l | l in old(db.leases) && l.queue == collection ::
        l.expires <= old(db.now) + LOCK_EXPIRATION)
        ==> r.Success? && attempts <= 14
    {
      ghost var takeover := quiet
        && forall l | l in db.leases && l.queue == collection :: l.expires <= db.now + LOCK_EXPIRATION;
      var i := 0;
      while i < LOCK_RETRIES
        invariant 0 <= i <= LOCK_RETRIES && db.Valid() && db.nextLease >= old(db.nextLease)
        invariant db.now >= old(db.now) + LOCK_RETRY_DELAY * i
        invariant quiet ==> db.leases <= old(db.leases)
        invariant quiet ==> forall l | l in old(db.leases) && db.now <= l.expires :: l in db.leases
        invariant i == 0 ==> db.leases == old(db.leases) && db.now == old(db.now)
        invariant takeover ==> i <= 13
      {
        // remove expired leases
        db.leases := Purge(db.leases, collection, db.now);

        var up := *;
        if (up || quiet) && Free(db.leases, collection) {
          var lease := Lease(db.nextLease, collection, queueID, db.now + LOCK_EXPIRATION);
          db.leases := db.leases + {lease};
          db.nextLease := db.nextLease + 1;
          return Success(lease), i + 1;
        }
        db.Sleep(LOCK_RETRY_DELAY, quiet);
        i := i + 1;
      }
      return Failure(LockHeld), LOCK_RETRIES;
    }

    /** Removes the lease of this trainer, whichever of its goroutines took it; an error if there is none. */
    method Unlock(up: bool) returns (ok: bool)
      requires db.Valid()
      modifies db`leases
      ensures db.Valid()
      ensures ok <==> up && exists l | l in old(db.leases) :: l.queue == collection && l.owner == queueID
      ensures ok ==> db.leases == Release(old(db.leases), collection, queueID)
      ensures !ok ==> db.leases == old(db.leases)
    {
      if !up || forall l | l in db.leases :: l.queue == collection ==> l.owner != queueID { return false; }
      db.leases := Release(db.leases, collection, queueID);
      return true;
    }
  }

  /** The 14th attempt is also the earliest that can succeed when attempts are exactly 5 seconds apart and the lease was
      taken as the call started: at 60 seconds it has not yet expired. */
  lemma {:induction false} TakeoverAtFourteenth(l: Lease, start: nat, attempt: nat)
    requires l.expires == start + LOCK_EXPIRATION && 1 <= attempt <= LOCK_RETRIES
    ensures Free(Purge({l}, l.queue, start + LOCK_RETRY_DELAY * (attempt - 1)), l.queue) <==> attempt >= 14
  {
  }
}
