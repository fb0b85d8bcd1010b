// The documents of the queue and lock collections, and the queries the queue code runs on them.
// All queues live in one database; a document carries the name of the queue it belongs to.
module Entries {
  import opened Wrappers

  type TrainingId = string
  type QueueName = string
  type TrainerId = string

  const LOCK_RETRIES: nat := 15
  const LOCK_RETRY_DELAY: nat := 5
  const LOCK_EXPIRATION: nat := 60

  /** One queued job. `key` stands for the Mongo `_id`, fresh for every insert. */
  datatype Entry = Entry(key: nat, queue: QueueName, id: TrainingId, submitted: nat)

  /** One document of a lock collection. */
  datatype Lease = Lease(key: nat, queue: QueueName, owner: TrainerId, expires: nat)

  /** Whether Sort("submitted") puts `e` before `f`; ties go to the first inserted, which has the smaller key. */
  predicate Precedes(e: Entry, f: Entry) {
    e.submitted < f.submitted || (e.submitted == f.submitted && e.key <= f.key)
  }

  /** `Find(nil).Sort("submitted").One`: the oldest entry of a queue. */
  function Earliest(entries: seq<Entry>, q: QueueName): (r: Option<Entry>)
    ensures r.None? <==> forall e | e in entries :: e.queue != q
    ensures r.Some? ==> r.value in entries && r.value.queue == q
    ensures r.Some? ==> forall e | e in entries && e.queue == q :: Precedes(r.value, e)
  {
    if entries == [] then None
    else
      var last := entries[|entries| - 1];
      var best := Earliest(entries[..|entries| - 1], q);
      assert entries == entries[..|entries| - 1] + [last];
      if last.queue == q && (best.None? || !Precedes(best.value, last)) then Some(last) else best
  }

  /** `Remove({_id: key})`. */
  function RemoveEntry(entries: seq<Entry>, key: nat): (r: seq<Entry>)
    ensures forall e :: e in r <==> e in entries && e.key != key
  {
    if entries == [] then []
    else
      var last := entries[|entries| - 1];
      var rest := RemoveEntry(entries[..|entries| - 1], key);
      assert entries == entries[..|entries| - 1] + [last];
      if last.key == key then rest else rest + [last]
  }

  /** The entries of one queue, in insertion order. */
  function Jobs(entries: seq<Entry>, q: QueueName): (r: seq<Entry>)
    ensures forall e :: e in r <==> e in entries && e.queue == q
  {
    if entries == [] then []
    else
      var last := entries[|entries| - 1];
      var rest := Jobs(entries[..|entries| - 1], q);
      assert entries == entries[..|entries| - 1] + [last];
      if last.queue == q then rest + [last] else rest
  }

  /** `Find({training_id: id}).One`: the first entry of a job. */
  function FirstWithId(jobs: seq<Entry>, id: TrainingId): (r: Option<Entry>)
    ensures r.None? <==> forall e | e in jobs :: e.id != id
    ensures r.Some? ==> r.value in jobs && r.value.id == id
  {
    if jobs == [] then None else if jobs[0].id == id then Some(jobs[0]) else FirstWithId(jobs[1..], id)
  }

  lemma {:induction false} JobsAppend(entries: seq<Entry>, e: Entry, q: QueueName)
    ensures Jobs(entries + [e], q) == if e.queue == q then Jobs(entries, q) + [e] else Jobs(entries, q)
  {
  }

  lemma {:induction false} RemoveAppend(entries: seq<Entry>, e: Entry, key: nat)
    ensures RemoveEntry(entries + [e], key) ==
      if e.key == key then RemoveEntry(entries, key) else RemoveEntry(entries, key) + [e]
  {
  }

  /** Removing a document by key and looking at one queue commute. */
  lemma {:induction false} JobsRemove(entries: seq<Entry>, key: nat, q: QueueName)
    ensures Jobs(RemoveEntry(entries, key), q) == RemoveEntry(Jobs(entries, q), key)
  {
    if entries != [] {
      var last, front := entries[|entries| - 1], entries[..|entries| - 1];
      assert entries == front + [last];
      JobsRemove(front, key, q);
      RemoveAppend(front, last, key);
      JobsAppend(front, last, q);
      JobsAppend(RemoveEntry(front, key), last, q);
      RemoveAppend(Jobs(front, q), last, key);
    }
  }

  lemma {:induction false} RemoveShrinks(entries: seq<Entry>, key: nat)
    ensures |RemoveEntry(entries, key)| <= |entries|
    ensures (exists e | e in entries :: e.key == key) ==> |RemoveEntry(entries, key)| < |entries|
  {
    if entries != [] {
      var last, front := entries[|entries| - 1], entries[..|entries| - 1];
      assert entries == front + [last];
      RemoveShrinks(front, key);
    }
  }

  /** `RemoveAll({expires: {$lt: now}})` on one lock collection: expiry is strict. */
  function Purge(leases: set<Lease>, q: QueueName, now: nat): set<Lease> {
    set l | l in leases && !(l.queue == q && l.expires < now)
  }

  /** `Remove({lock, owner})` on one lock collection. */
  function Release(leases: set<Lease>, q: QueueName, owner: TrainerId): set<Lease> {
    set l | l in leases && !(l.queue == q && l.owner == owner)
  }

  /** The unique index on the lock name lets an insert through only when this holds. */
  predicate Free(leases: set<Lease>, q: QueueName) {
    forall l | l in leases :: l.queue != q
  }

  /** The lock collection of a queue never holds two documents. */
  predicate OneLeasePerQueue(leases: set<Lease>) {
    forall l, m | l in leases && m in leases && l.queue == m.queue :: l == m
  }
}
