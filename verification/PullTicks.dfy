// One tick of a queue's goroutine: pullJobFromQueue and its calls to itself, with nobody else at work meanwhile.
module PullTicks {
  import opened Wrappers
  import opened JobStatus
  import opened Entries
  import opened Records
  import opened Repository
  import opened JobQueue
  import opened TrainerOps
  import opened TrainerRuns

  lemma {:induction false} RoundOk(w: World, q: QueueName, a: RoundAnswers)
    requires WorldOk(w)
    ensures WorldOk(Round(w, q, a).0)
  {
    StepOk(w, RoundOp(q, a));
  }

  /** The database after the given rounds. */
  function Pull(w: World, q: QueueName, rounds: seq<RoundAnswers>): (w': World)
    requires WorldOk(w)
    ensures WorldOk(w')
    decreases |rounds|
  {
    if rounds == [] then w
    else
      RoundOk(w, q, rounds[0]);
      Pull(Round(w, q, rounds[0]).0, q, rounds[1..])
  }

  /** The rounds make up one tick: each but the last ends with the recursive call. */
  predicate IsTick(w: World, q: QueueName, rounds: seq<RoundAnswers>)
    requires WorldOk(w)
    decreases |rounds|
  {
    rounds != [] &&
    var (w', again) := Round(w, q, rounds[0]);
    RoundOk(w, q, rounds[0]);
    if again then IsTick(w', q, rounds[1..]) else |rounds| == 1
  }

  predicate IsQueued(d: TrainingRecord) {
    Complete(d) && !d.deleted && StatusOf(d) == QUEUED
  }

  /** The termination measure of pullJobFromQueue. */
  function QueuedCount(docs: seq<TrainingRecord>): nat {
    if docs == [] then 0
    else QueuedCount(docs[..|docs| - 1]) + if IsQueued(docs[|docs| - 1]) then 1 else 0
  }

  lemma {:induction false} CountRewrite(docs: seq<TrainingRecord>, k: nat, to: TrainingRecord)
    requires k < |docs| && IsQueued(docs[k]) && !IsQueued(to)
    ensures QueuedCount(docs[k := to]) == QueuedCount(docs) - 1
    decreases |docs|
  {
    var n := |docs| - 1;
    if k < n {
      assert docs[k := to][..n] == docs[..n][k := to];
      CountRewrite(docs[..n], k, to);
    } else {
      assert docs[k := to][..n] == docs[..n];
    }
  }

  predicate WaitsInQueue(docs: seq<TrainingRecord>, id: TrainingId) {
    FindDoc(docs, id).Some? && IsQueued(FindDoc(docs, id).value)
  }

  /** The round stores PENDING for the job at the head. */
  predicate Takes(w: World, q: QueueName, a: RoundAnswers)
    requires WorldOk(w)
  {
    Picked(w, q, a).Some? && a.submit.config && a.submit.store
  }

  lemma {:induction false} RoundDocsAt(w: World, q: QueueName, a: RoundAnswers)
    requires WorldOk(w) && Takes(w, q, a)
    ensures var c := ChangeOf(w, RoundOp(q, a));
        && c.Rewrite? && c.k < |w.docs| && Jobs(w.entries, q) != [] && IsQueued(w.docs[c.k])
        && w.docs[c.k].trainingID == c.to.trainingID == Jobs(w.entries, q)[0].id
        && FindDoc(w.docs, c.to.trainingID) == Some(w.docs[c.k])
        && c.to.docId == w.docs[c.k].docId && Complete(c.to) && StatusOf(c.to) == PENDING && !c.to.deleted
        && Round(w, q, a).0.docs == w.docs[c.k := c.to]
  {
    DocsAfter(w, RoundOp(q, a));
    FoundAt(w.docs, w.nextDoc, Jobs(w.entries, q)[0].id);
  }

  lemma {:induction false} NotTaken(w: World, q: QueueName, a: RoundAnswers)
    requires WorldOk(w) && !Takes(w, q, a)
    ensures Round(w, q, a).0.docs == w.docs && !Round(w, q, a).1 && Round(w, q, a).0.deployed == w.deployed
  {
  }

  /** Every round that goes on uses one QUEUED record up. */
  lemma {:induction false} RoundShrinks(w: World, q: QueueName, a: RoundAnswers)
    requires WorldOk(w) && Round(w, q, a).1
    ensures QueuedCount(Round(w, q, a).0.docs) < QueuedCount(w.docs)
  {
    if Takes(w, q, a) { RoundDocsAt(w, q, a); } else { NotTaken(w, q, a); }
    CountRewrite(w.docs, ChangeOf(w, RoundOp(q, a)).k, ChangeOf(w, RoundOp(q, a)).to);
  }

  /** A tick ends: it has at most one round more than there are QUEUED records. */
  lemma {:induction false} TickEnds(w: World, q: QueueName, rounds: seq<RoundAnswers>)
    requires WorldOk(w) && IsTick(w, q, rounds)
    ensures |rounds| <= QueuedCount(w.docs) + 1
    decreases |rounds|
  {
    var (w', again) := Round(w, q, rounds[0]);
    if again {
      RoundOk(w, q, rounds[0]);
      RoundShrinks(w, q, rounds[0]);
      TickEnds(w', q, rounds[1..]);
    }
  }

  /** A round makes no record QUEUED, and the one it takes no longer is. */
  lemma {:induction false} RoundWaiting(w: World, q: QueueName, a: RoundAnswers, id: TrainingId)
    requires WorldOk(w) && WaitsInQueue(Round(w, q, a).0.docs, id)
    ensures WaitsInQueue(w.docs, id)
    ensures Takes(w, q, a) ==> id != Jobs(w.entries, q)[0].id
  {
    if Takes(w, q, a) { RoundDocsAt(w, q, a); } else { NotTaken(w, q, a); }
    if Takes(w, q, a) {
      var c := ChangeOf(w, RoundOp(q, a));
      ReplaceKeepsConsistent(w.docs, w.nextDoc, c.k, c.to);
      RewriteWaiting(w.docs, w.nextDoc, c.k, c.to, id);
    }
  }

  lemma {:induction false} RewriteWaiting(docs: seq<TrainingRecord>, nextDoc: nat, k: nat, to: TrainingRecord,
                                          id: TrainingId)
    requires Consistent(docs, nextDoc) && k < |docs| && Consistent(docs[k := to], nextDoc)
    requires to.trainingID == docs[k].trainingID && !IsQueued(to) && WaitsInQueue(docs[k := to], id)
    ensures WaitsInQueue(docs, id) && id != to.trainingID
  {
  }

  lemma {:induction false} PullWaiting(w: World, q: QueueName, rounds: seq<RoundAnswers>, id: TrainingId)
    requires WorldOk(w) && WaitsInQueue(Pull(w, q, rounds).docs, id)
    ensures WaitsInQueue(w.docs, id)
    decreases |rounds|
  {
    if rounds != [] {
      RoundOk(w, q, rounds[0]);
      PullWaiting(Round(w, q, rounds[0]).0, q, rounds[1..], id);
      RoundWaiting(w, q, rounds[0], id);
    }
  }

  function Ids(jobs: seq<Entry>): (ids: seq<TrainingId>)
    ensures |ids| == |jobs| && forall i | 0 <= i < |jobs| :: ids[i] == jobs[i].id
  {
    seq(|jobs|, i requires 0 <= i < |jobs| => jobs[i].id)
  }

  /** The first `k` jobs were QUEUED records, all different, and are QUEUED no longer. */
  ghost predicate TakenFrom(before: seq<TrainingRecord>, after: seq<TrainingRecord>, jobs: seq<Entry>) {
    && (forall i | 0 <= i < |jobs| :: WaitsInQueue(before, jobs[i].id) && !WaitsInQueue(after, jobs[i].id))
    && (forall i, j | 0 <= i < j < |jobs| :: jobs[i].id != jobs[j].id)
  }

  /** What a round does to the queue, to the QUEUED records and to the list of jobs sent to LCM. */
  ghost predicate Effect(w: World, q: QueueName, w': World, taken: bool, sent: bool, again: bool) {
    var jobs := Jobs(w.entries, q);
    && (again ==> sent) && (sent ==> taken) && InOrder(w'.entries)
    && (if taken then jobs != [] && WaitsInQueue(w.docs, jobs[0].id) && !WaitsInQueue(w'.docs, jobs[0].id)
        else w'.docs == w.docs)
    && (forall id | WaitsInQueue(w'.docs, id) :: WaitsInQueue(w.docs, id) && (taken ==> id != jobs[0].id))
    && w'.deployed == w.deployed + (if sent then [jobs[0].id] else [])
    && (again ==> Jobs(w'.entries, q) == jobs || Jobs(w'.entries, q) == jobs[1..])
  }

  predicate Sends(w: World, q: QueueName, a: RoundAnswers)
    requires WorldOk(w)
  {
    Takes(w, q, a) && a.submit.client
  }

  lemma {:induction false} RoundEffect(w: World, q: QueueName, a: RoundAnswers)
    requires WorldOk(w) && InOrder(w.entries)
    ensures Effect(w, q, Round(w, q, a).0, Takes(w, q, a), Sends(w, q, a), Round(w, q, a).1)
  {
    if Takes(w, q, a) { RoundDocsAt(w, q, a); } else { NotTaken(w, q, a); }
    forall id | WaitsInQueue(Round(w, q, a).0.docs, id)
      ensures WaitsInQueue(w.docs, id) && (Takes(w, q, a) ==> id != Jobs(w.entries, q)[0].id)
    {
      RoundWaiting(w, q, a, id);
    }
    RoundEntries(w, q, a);
    RoundDeploys(w, q, a);
  }

  lemma {:induction false} RoundDeploys(w: World, q: QueueName, a: RoundAnswers)
    requires WorldOk(w)
    ensures Takes(w, q, a) ==> Jobs(w.entries, q) != []
    ensures Round(w, q, a).0.deployed == w.deployed + (if Sends(w, q, a) then [Jobs(w.entries, q)[0].id] else [])
    ensures Round(w, q, a).1 ==> Sends(w, q, a)
  {
    if Takes(w, q, a) { RoundDocsAt(w, q, a); } else { NotTaken(w, q, a); }
  }

  lemma {:induction false} RoundEntries(w: World, q: QueueName, a: RoundAnswers)
    requires WorldOk(w) && InOrder(w.entries)
    ensures InOrder(Round(w, q, a).0.entries)
    ensures var jobs, jobs' := Jobs(w.entries, q), Jobs(Round(w, q, a).0.entries, q);
      Round(w, q, a).1 ==> jobs != [] && (jobs' == jobs || jobs' == jobs[1..])
  {
    var es, es' := w.entries, Round(w, q, a).0.entries;
    var gone := RoundRemoves(w, q, a);
    if gone.Some? {
      RemoveInOrder(es, gone.value.key);
      JobsRemove(es, gone.value.key, q);
    }
    if Round(w, q, a).1 { DequeueEffect(es, q); }
  }

  /** The entry a round removes, if any: the head, when the round goes on. */
  lemma {:induction false} RoundRemoves(w: World, q: QueueName, a: RoundAnswers) returns (gone: Option<Entry>)
    requires WorldOk(w)
    ensures Round(w, q, a).0.entries == if gone.Some? then RemoveEntry(w.entries, gone.value.key) else w.entries
    ensures Round(w, q, a).1 ==> Jobs(w.entries, q) != [] && (gone.Some? ==> gone.value == Jobs(w.entries, q)[0])
  {
    if Takes(w, q, a) {
      gone := TakenRemoves(w, q, a);
    } else {
      NotTaken(w, q, a);
      gone := if Round(w, q, a).0.entries != w.entries then EntryOf(w.entries, q, Jobs(w.entries, q)[0].id) else None;
    }
  }

  lemma {:induction false} TakenRemoves(w: World, q: QueueName, a: RoundAnswers) returns (gone: Option<Entry>)
    requires WorldOk(w) && Takes(w, q, a)
    ensures Jobs(w.entries, q) != [] && (gone.Some? ==> gone.value == Jobs(w.entries, q)[0])
    ensures Round(w, q, a).0.entries == if gone.Some? then RemoveEntry(w.entries, gone.value.key) else w.entries
  {
    gone := if Round(w, q, a).0.entries != w.entries then Some(Jobs(w.entries, q)[0]) else None;
  }

  /** The jobs sent between `w` and `end` are the first `k` of the queue, in order, each once. */
  ghost predicate TakesPrefix(w: World, q: QueueName, end: World, k: nat) {
    && k <= |Jobs(w.entries, q)|
    && end.deployed == w.deployed + Ids(Jobs(w.entries, q)[..k])
    && TakenFrom(w.docs, end.docs, Jobs(w.entries, q)[..k])
  }

  /** One step of IsTick and Pull. */
  lemma {:induction false} FirstRound(w: World, q: QueueName, rounds: seq<RoundAnswers>)
    returns (w': World, taken: bool, sent: bool, again: bool)
    requires WorldOk(w) && InOrder(w.entries) && IsTick(w, q, rounds)
    ensures WorldOk(w') && Effect(w, q, w', taken, sent, again)
    ensures again ==> |rounds| > 1 && IsTick(w', q, rounds[1..])
    ensures Pull(w, q, rounds) == if again then Pull(w', q, rounds[1..]) else w'
  {
    RoundEffect(w, q, rounds[0]);
    taken, sent := Takes(w, q, rounds[0]), Sends(w, q, rounds[0]);
    w', again := Unfolded(w, q, rounds);
  }

  lemma {:induction false} Unfolded(w: World, q: QueueName, rounds: seq<RoundAnswers>) returns (w': World, again: bool)
    requires WorldOk(w) && IsTick(w, q, rounds)
    ensures rounds != [] && (w', again) == Round(w, q, rounds[0]) && WorldOk(w')
    ensures again ==> |rounds| > 1 && IsTick(w', q, rounds[1..])
    ensures Pull(w, q, rounds) == if again then Pull(w', q, rounds[1..]) else w'
  {
    RoundOk(w, q, rounds[0]);
    var r := Round(w, q, rounds[0]);
    w', again := r.0, r.1;
    if !again { assert rounds[1..] == []; }
  }

  /** Main result: the jobs a tick sends to LCM are the first `k` of the queue, in order, each once; they were QUEUED
      before the tick and are not after it. */
  lemma {:induction false} TickTakesPrefix(w: World, q: QueueName, rounds: seq<RoundAnswers>) returns (k: nat)
    requires WorldOk(w) && InOrder(w.entries) && IsTick(w, q, rounds)
    ensures k <= |rounds| && TakesPrefix(w, q, Pull(w, q, rounds), k)
    decreases |rounds|
  {
    var w', taken, sent, again := FirstRound(w, q, rounds);
    if !again {
      k := if sent then 1 else 0;
      LastRoundTakes(w, q, w', taken, sent);
    } else {
      var k' := TickTakesPrefix(w', q, rounds[1..]);
      k := RestTakes(w, q, w', rounds[1..], k');
    }
  }

  lemma {:induction false} RestTakes(w: World, q: QueueName, mid: World, rest: seq<RoundAnswers>, k': nat)
    returns (k: nat)
    requires WorldOk(mid) && Effect(w, q, mid, true, true, true) && TakesPrefix(mid, q, Pull(mid, q, rest), k')
    ensures k <= k' + 1 && TakesPrefix(w, q, Pull(mid, q, rest), k)
  {
    var end, head := Pull(mid, q, rest), Jobs(w.entries, q)[0].id;
    if WaitsInQueue(end.docs, head) { PullWaiting(mid, q, rest, head); }
    if Jobs(mid.entries, q) == Jobs(w.entries, q) {
      PrefixStays(w, q, mid, end, k');
      k := 1;
    } else {
      PrefixGrows(w.docs, mid.docs, end.docs, w.deployed, Jobs(w.entries, q), k');
      k := k' + 1;
    }
  }

  lemma {:induction false} LastRoundTakes(w: World, q: QueueName, end: World, taken: bool, sent: bool)
    requires Effect(w, q, end, taken, sent, false)
    ensures TakesPrefix(w, q, end, if sent then 1 else 0)
  {
  }

  /** When Dequeue failed, the rest of the tick finds the job just sent, which is QUEUED no longer, and sends
      nothing. */
  lemma {:induction false} PrefixStays(w: World, q: QueueName, mid: World, end: World, k: nat)
    requires Effect(w, q, mid, true, true, true) && TakesPrefix(mid, q, end, k)
    requires Jobs(mid.entries, q) == Jobs(w.entries, q)
    requires !WaitsInQueue(end.docs, Jobs(w.entries, q)[0].id)
    ensures TakesPrefix(w, q, end, 1)
  {
    HeadLeftBehind(w.docs, mid.docs, end.docs, Jobs(w.entries, q), k);
  }

  lemma {:induction false} PrefixGrows(before: seq<TrainingRecord>, mid: seq<TrainingRecord>,
                                       after: seq<TrainingRecord>, sent: seq<TrainingId>, jobs: seq<Entry>, k: nat)
    requires k < |jobs| && WaitsInQueue(before, jobs[0].id) && !WaitsInQueue(after, jobs[0].id)
    requires forall id | WaitsInQueue(mid, id) :: WaitsInQueue(before, id) && id != jobs[0].id
    requires TakenFrom(mid, after, jobs[1..][..k])
    ensures TakenFrom(before, after, jobs[..k + 1])
    ensures sent + [jobs[0].id] + Ids(jobs[1..][..k]) == sent + Ids(jobs[..k + 1])
  {
    TakenGrows(before, mid, after, jobs, k);
    IdsOfPrefix(jobs, k);
  }

  lemma {:induction false} HeadLeftBehind(before: seq<TrainingRecord>, mid: seq<TrainingRecord>,
                                          after: seq<TrainingRecord>, jobs: seq<Entry>, k: nat)
    requires k <= |jobs| && jobs != [] && WaitsInQueue(before, jobs[0].id)
    requires !WaitsInQueue(mid, jobs[0].id) && !WaitsInQueue(after, jobs[0].id)
    requires TakenFrom(mid, after, jobs[..k])
    ensures k == 0 && Ids(jobs[..k]) == [] && Ids(jobs[..1]) == [jobs[0].id] && TakenFrom(before, after, jobs[..1])
  {
  }

  lemma {:induction false} TakenGrows(before: seq<TrainingRecord>, mid: seq<TrainingRecord>, after: seq<TrainingRecord>,
                                      jobs: seq<Entry>, k: nat)
    requires k < |jobs| && WaitsInQueue(before, jobs[0].id) && !WaitsInQueue(after, jobs[0].id)
    requires forall id | WaitsInQueue(mid, id) :: WaitsInQueue(before, id) && id != jobs[0].id
    requires TakenFrom(mid, after, jobs[1..][..k])
    ensures TakenFrom(before, after, jobs[..k + 1])
  {
    var later := jobs[1..][..k];
    assert forall i | 0 < i < k + 1 :: jobs[i] == later[i - 1];
    assert forall i | 0 < i < k + 1 :: WaitsInQueue(mid, jobs[i].id) && !WaitsInQueue(after, jobs[i].id);
  }

  lemma {:induction false} IdsOfPrefix(jobs: seq<Entry>, k: nat)
    requires k < |jobs|
    ensures Ids(jobs[..k + 1]) == [jobs[0].id] + Ids(jobs[1..][..k])
  {
  }

  /** Every round but the last of a tick had its job let through by the rate limiter. */
  lemma {:induction false} OnlyAllowedRoundsGoOn(w: World, q: QueueName, rounds: seq<RoundAnswers>, i: nat)
    requires WorldOk(w) && IsTick(w, q, rounds) && i < |rounds| - 1
    ensures rounds[i].limiter.Allowed?
    decreases |rounds|
  {
    RoundOk(w, q, rounds[0]);
    if i == 0 {
      GoingOnAllowed(w, q, rounds[0]);
    } else {
      OnlyAllowedRoundsGoOn(Round(w, q, rounds[0]).0, q, rounds[1..], i - 1);
    }
  }

  lemma {:induction false} GoingOnAllowed(w: World, q: QueueName, a: RoundAnswers)
    requires WorldOk(w) && Round(w, q, a).1
    ensures a.limiter.Allowed?
  {
  }

  /** A job whose deployment failed is not tried again: it stays PENDING, and the next round to see its entry, which was
      left at the head, removes it and sends nothing. */
  lemma {:induction false} FailedDeployNotRetried(w: World, q: QueueName, a: RoundAnswers, b: RoundAnswers)
    requires WorldOk(w) && InOrder(w.entries) && Takes(w, q, a) && !(a.submit.client && a.submit.deploy)
    requires b.lock && b.size && b.peek && b.find && b.queueFind && b.queueRemove
    ensures WorldOk(Round(w, q, a).0)
    ensures var w1, head := Round(w, q, a).0, Jobs(w.entries, q)[0];
      var w2 := Round(w1, q, b).0;
      && w1.entries == w.entries && w2.deployed == w1.deployed && w2.docs == w1.docs
      && FindDoc(w2.docs, head.id).Some? && StatusOf(FindDoc(w2.docs, head.id).value) == PENDING
      && head !in w2.entries
  {
    RoundOk(w, q, a);
    RoundLeavesPending(w, q, a);
    RoundEffect(w, q, a);
    HeadStale(w, q, a, b);
  }

  lemma {:induction false} RoundLeavesPending(w: World, q: QueueName, a: RoundAnswers)
    requires WorldOk(w) && Takes(w, q, a)
    ensures WorldOk(Round(w, q, a).0) && Jobs(w.entries, q) != []
    ensures var tr := FindDoc(Round(w, q, a).0.docs, Jobs(w.entries, q)[0].id);
      tr.Some? && StatusOf(tr.value) == PENDING
  {
    RoundOk(w, q, a);
    RoundDocsAt(w, q, a);
    var c := ChangeOf(w, RoundOp(q, a));
    assert Round(w, q, a).0.docs[c.k] == c.to;
  }

  lemma {:induction false} HeadStale(w: World, q: QueueName, a: RoundAnswers, b: RoundAnswers)
    requires WorldOk(w) && InOrder(w.entries) && Takes(w, q, a) && !(a.submit.client && a.submit.deploy)
    requires b.lock && b.size && b.peek && b.find && b.queueFind && b.queueRemove
    requires WorldOk(Round(w, q, a).0) && Jobs(w.entries, q) != []
    requires !WaitsInQueue(Round(w, q, a).0.docs, Jobs(w.entries, q)[0].id)
    ensures var w1, head := Round(w, q, a).0, Jobs(w.entries, q)[0];
      w1.entries == w.entries && Round(w1, q, b).0 == w1.(entries := DropEntry(w.entries, q, head.id, true))
    ensures Jobs(w.entries, q)[0] !in DropEntry(w.entries, q, Jobs(w.entries, q)[0].id, true)
  {
    assert EntryOf(w.entries, q, Jobs(w.entries, q)[0].id) == Some(Jobs(w.entries, q)[0]);
  }

  // ---- lock calls, and the clock ----

  datatype LockEvent = Locked(queue: QueueName) | Unlocked(queue: QueueName)

  /** A round that gets the lock unlocks it, once. */
  function LockPair(q: QueueName, locked: bool): seq<LockEvent> {
    if locked then [Locked(q), Unlocked(q)] else []
  }

  function LockCalls(q: QueueName, rounds: seq<RoundAnswers>): seq<LockEvent> {
    if rounds == [] then [] else LockPair(q, rounds[0].lock) + LockCalls(q, rounds[1..])
  }

  lemma {:induction false} LockCallsGrow(before: seq<LockEvent>, q: QueueName, a: RoundAnswers, rest: seq<RoundAnswers>)
    ensures before + LockCalls(q, [a] + rest) == before + LockPair(q, a.lock) + LockCalls(q, rest)
    ensures before + LockCalls(q, [a]) == before + LockPair(q, a.lock)
  {
  }

  /** The rounds got the answers of `o` from number `n` on, but for the outcome of Lock. */
  ghost predicate Answered(rounds: seq<RoundAnswers>, o: nat -> RoundAnswers, n: nat) {
    forall i | 0 <= i < |rounds| :: rounds[i] == o(n + i).(lock := rounds[i].lock)
  }

  predicate AllLocked(rounds: seq<RoundAnswers>) {
    forall a | a in rounds :: a.lock
  }

  lemma {:induction false} AnsweredGrows(a: RoundAnswers, rest: seq<RoundAnswers>, o: nat -> RoundAnswers, n: nat)
    requires a == o(n).(lock := a.lock) && Answered(rest, o, n + 1)
    ensures Answered([a] + rest, o, n) && (a.lock && AllLocked(rest) ==> AllLocked([a] + rest))
  {
  }

  function AtTime(w: World, now: nat): World {
    w.(now := now)
  }

  /** Pulling stamps no entry: it does the same at any time. */
  lemma {:induction false} PullIgnoresClock(w: World, q: QueueName, rounds: seq<RoundAnswers>, now: nat)
    requires WorldOk(w)
    ensures WorldOk(AtTime(w, now))
    ensures Pull(AtTime(w, now), q, rounds) == AtTime(Pull(w, q, rounds), now)
    ensures IsTick(AtTime(w, now), q, rounds) <==> IsTick(w, q, rounds)
    decreases |rounds|
  {
    if rounds != [] {
      RoundIgnoresClock(w, q, rounds[0], now);
      RoundOk(w, q, rounds[0]);
      PullIgnoresClock(Round(w, q, rounds[0]).0, q, rounds[1..], now);
    }
  }

  lemma {:induction false} RoundIgnoresClock(w: World, q: QueueName, a: RoundAnswers, now: nat)
    requires WorldOk(w)
    ensures Round(AtTime(w, now), q, a) == (AtTime(Round(w, q, a).0, now), Round(w, q, a).1)
  {
    var jobs, later := Jobs(w.entries, q), AtTime(w, now);
    assert later.entries == w.entries && later.docs == w.docs;
    if Picked(w, q, a).Some? {
      SubmissionIgnoresClock(w, q, Picked(w, q, a).value, a, now);
      assert Round(w, q, a) == Submission(w, q, Picked(w, q, a).value, a);
      assert Round(later, q, a) == Submission(later, q, Picked(w, q, a).value, a);
    }
  }

  lemma {:induction false} SubmissionIgnoresClock(w: World, q: QueueName, tr: TrainingRecord, a: RoundAnswers, now: nat)
    requires Submittable(tr) && Jobs(w.entries, q) != []
    ensures var (w', again) := Submission(w, q, tr, a);
      Submission(AtTime(w, now), q, tr, a) == (AtTime(w', now), again)
  {
    SubmitIgnoresClock(w, Zoned(tr, a.limiter), a.submit, now);
  }

  lemma {:induction false} SubmitIgnoresClock(w: World, r: TrainingRecord, a: SubmitAnswers, now: nat)
    requires Submittable(r)
    ensures Submit(AtTime(w, now), r, a) == (AtTime(Submit(w, r, a).0, now), Submit(w, r, a).1)
  {
  }

  lemma {:induction false} TickOfOne(w: World, q: QueueName, a: RoundAnswers, end: World)
    requires WorldOk(w) && Round(w, q, a) == (end, false)
    ensures IsTick(w, q, [a]) && Pull(w, q, [a]) == end
  {
  }

  /** A round that goes on, followed later by a tick, is a tick. */
  lemma {:induction false} TickGrows(w: World, q: QueueName, a: RoundAnswers, mid: World, rest: seq<RoundAnswers>,
                                     end: World)
    requires WorldOk(w) && WorldOk(mid) && Round(w, q, a).1 && mid == AtTime(Round(w, q, a).0, mid.now)
    requires IsTick(mid, q, rest) && end == AtTime(Pull(mid, q, rest), end.now)
    ensures IsTick(w, q, [a] + rest)
    ensures end == AtTime(Pull(w, q, [a] + rest), end.now)
  {
    RoundOk(w, q, a);
    assert ([a] + rest)[1..] == rest;
    PullIgnoresClock(Round(w, q, a).0, q, rest, mid.now);
  }
}
