// When a tick goes on and when it stops: nothing that can be sent is left at the front of the queue.
module TickProgress {
  import opened Wrappers
  import opened JobStatus
  import opened Entries
  import opened Records
  import opened Repository
  import opened JobQueue
  import opened TrainerOps
  import opened TrainerRuns
  import opened PullTicks

  /** Everything the round asks of Mongo and LCM succeeds. */
  predicate Answers(a: RoundAnswers) {
    && a.lock && a.size && a.peek && a.find && a.queueFind && a.queueRemove && a.dequeueFind && a.dequeueRemove
    && a.submit.config && a.submit.store && a.submit.client && a.submit.deploy
  }

  /** The job at the head of the queue has a name and a QUEUED record. */
  predicate HeadWaits(w: World, q: QueueName) {
    var jobs := Jobs(w.entries, q);
    jobs != [] && jobs[0].id != "" && WaitsInQueue(w.docs, jobs[0].id)
  }

  // ---- one round ----

  lemma {:induction false} SendingRoundGoesOn(w: World, q: QueueName, a: RoundAnswers)
    requires WorldOk(w) && HeadWaits(w, q) && Answers(a) && a.limiter.Allowed?
    ensures Takes(w, q, a) && Sends(w, q, a) && Round(w, q, a).1
    ensures Round(w, q, a).0.entries == RemoveEntry(w.entries, Jobs(w.entries, q)[0].key)
  {
  }

  lemma {:induction false} OthersStillWait(docs: seq<TrainingRecord>, nextDoc: nat, k: nat, to: TrainingRecord,
                                           id: TrainingId)
    requires Consistent(docs, nextDoc) && k < |docs| && to.trainingID == docs[k].trainingID != id
    requires Consistent(docs[k := to], nextDoc) && WaitsInQueue(docs, id)
    ensures WaitsInQueue(docs[k := to], id)
  {
    var d := FindDoc(docs, id).value;
    var i :| 0 <= i < |docs| && docs[i] == d;
    assert docs[k := to][i] == d && d in docs[k := to];
    SameDoc(docs[k := to], nextDoc, d, FindDoc(docs[k := to], id).value);
  }

  /** The head has been sent and taken off the queue, and the other jobs wait as before. */
  ghost predicate HeadSent(w: World, q: QueueName, w': World) {
    var jobs := Jobs(w.entries, q);
    && HeadWaits(w, q) && w'.deployed == w.deployed + [jobs[0].id] && Jobs(w'.entries, q) == jobs[1..]
    && forall id :: WaitsInQueue(w'.docs, id) <==> WaitsInQueue(w.docs, id) && id != jobs[0].id
  }

  /** A round that finds a waiting job at the head and is let through sends it, takes it off the queue and goes on. */
  lemma {:induction false} SendingRound(w: World, q: QueueName, a: RoundAnswers) returns (w': World)
    requires WorldOk(w) && InOrder(w.entries) && HeadWaits(w, q) && Answers(a) && a.limiter.Allowed?
    ensures Round(w, q, a) == (w', true) && WorldOk(w') && InOrder(w'.entries) && HeadSent(w, q, w')
  {
    var head := Jobs(w.entries, q)[0];
    w' := Round(w, q, a).0;
    SendingRoundGoesOn(w, q, a);
    RoundOk(w, q, a);
    RoundDeploys(w, q, a);
    RoundDocsAt(w, q, a);
    var c := ChangeOf(w, RoundOp(q, a));
    forall id ensures WaitsInQueue(w'.docs, id) <==> WaitsInQueue(w.docs, id) && id != head.id {
      if WaitsInQueue(w'.docs, id) { RoundWaiting(w, q, a, id); }
      if WaitsInQueue(w.docs, id) && id != head.id {
        ReplaceKeepsConsistent(w.docs, w.nextDoc, c.k, c.to);
        OthersStillWait(w.docs, w.nextDoc, c.k, c.to, id);
      }
    }
    HeadRemoved(w.entries, q);
  }

  lemma {:induction false} HeadRemoved(entries: seq<Entry>, q: QueueName)
    requires InOrder(entries) && Jobs(entries, q) != []
    ensures var rest := RemoveEntry(entries, Jobs(entries, q)[0].key);
      InOrder(rest) && Jobs(rest, q) == Jobs(entries, q)[1..]
  {
    RemoveInOrder(entries, Jobs(entries, q)[0].key);
    JobsRemove(entries, Jobs(entries, q)[0].key, q);
    DequeueEffect(entries, q);
  }

  /** The entry at the head belongs to no QUEUED job. */
  predicate HeadStale(w: World, q: QueueName) {
    var jobs := Jobs(w.entries, q);
    jobs != [] && jobs[0].id != "" && !WaitsInQueue(w.docs, jobs[0].id)
  }

  /** Any other round in which everything answers sends nothing and stops; it drops a stale head. */
  lemma {:induction false} StoppingRound(w: World, q: QueueName, a: RoundAnswers) returns (w': World)
    requires WorldOk(w) && InOrder(w.entries) && Answers(a) && !(HeadWaits(w, q) && !a.limiter.Limited?)
    ensures Round(w, q, a) == (w', false) && WorldOk(w') && w'.deployed == w.deployed && w'.docs == w.docs
    ensures Jobs(w'.entries, q) == if HeadStale(w, q) then Jobs(w.entries, q)[1..] else Jobs(w.entries, q)
  {
    RoundOk(w, q, a);
    w' := Round(w, q, a).0;
    if HeadStale(w, q) {
      StaleRound(w, q, a);
      HeadRemoved(w.entries, q);
    }
  }

  lemma {:induction false} StaleRound(w: World, q: QueueName, a: RoundAnswers)
    requires WorldOk(w) && Answers(a) && HeadStale(w, q)
    ensures Round(w, q, a).0.entries == RemoveEntry(w.entries, Jobs(w.entries, q)[0].key)
  {
  }

  // ---- whole ticks ----

  /** The round has nothing to send: the queue is empty, or its head has no name, is stale or is held back. It drops a
      stale head and changes nothing else. */
  predicate Stopped(w: World, q: QueueName, l: Limiter, w': World) {
    && (!HeadWaits(w, q) || l.Limited?)
    && w'.deployed == w.deployed && w'.docs == w.docs
    && Jobs(w'.entries, q) == if HeadStale(w, q) then Jobs(w.entries, q)[1..] else Jobs(w.entries, q)
  }

  /** Main result: a tick whose last round was answered throughout, rate limiter included, ended because nothing was
      left to send when that round began: the queue was empty, or its head had no name or no QUEUED record, or the rate
      limiter held it back. */
  lemma {:induction false} TickStops(w: World, q: QueueName, rounds: seq<RoundAnswers>) returns (last: World)
    requires WorldOk(w) && InOrder(w.entries) && IsTick(w, q, rounds)
    requires Answers(rounds[|rounds| - 1]) && !rounds[|rounds| - 1].limiter.Unreachable?
    ensures last == Pull(w, q, rounds[..|rounds| - 1])
    ensures Stopped(last, q, rounds[|rounds| - 1].limiter, Pull(w, q, rounds))
    decreases |rounds|
  {
    var w', again := StepOrStop(w, q, rounds);
    last := w;
    if again { last := TickStops(w', q, rounds[1..]); }
  }

  /** The first round leads to the rest of the tick, or it is the last. */
  lemma {:induction false} StepOrStop(w: World, q: QueueName, rounds: seq<RoundAnswers>)
    returns (w': World, again: bool)
    requires WorldOk(w) && InOrder(w.entries) && IsTick(w, q, rounds)
    requires Answers(rounds[|rounds| - 1]) && !rounds[|rounds| - 1].limiter.Unreachable?
    ensures WorldOk(w') && Pull(w, q, rounds) == if again then Pull(w', q, rounds[1..]) else w'
    ensures again ==> |rounds| > 1 && InOrder(w'.entries) && IsTick(w', q, rounds[1..])
    ensures again ==> Pull(w, q, rounds[..|rounds| - 1]) == Pull(w', q, rounds[1..][..|rounds| - 2])
    ensures !again ==> |rounds| == 1 && Pull(w, q, rounds[..0]) == w && Stopped(w, q, rounds[0].limiter, w')
  {
    w', again := Unfolded(w, q, rounds);
    if again {
      RoundEffect(w, q, rounds[0]);
      PullPrefix(w, q, rounds, w');
    } else {
      LastRoundStops(w, q, rounds[0], w');
    }
  }

  lemma {:induction false} PullPrefix(w: World, q: QueueName, rounds: seq<RoundAnswers>, w': World)
    requires WorldOk(w) && WorldOk(w') && |rounds| > 1 && w' == Round(w, q, rounds[0]).0
    ensures Pull(w, q, rounds[..|rounds| - 1]) == Pull(w', q, rounds[1..][..|rounds| - 2])
  {
    assert rounds[..|rounds| - 1][1..] == rounds[1..][..|rounds| - 2];
  }

  lemma {:induction false} LastRoundStops(w: World, q: QueueName, a: RoundAnswers, w': World)
    requires WorldOk(w) && InOrder(w.entries) && Round(w, q, a) == (w', false)
    requires Answers(a) && !a.limiter.Unreachable?
    ensures Stopped(w, q, a.limiter, w')
  {
    if HeadWaits(w, q) && a.limiter.Allowed? { SendingRoundGoesOn(w, q, a); }
    var _ := StoppingRound(w, q, a);
  }

  /** The first `k` jobs of the queue have names and QUEUED records, all different. */
  predicate Sendable(docs: seq<TrainingRecord>, jobs: seq<Entry>, k: nat) {
    && k <= |jobs|
    && (forall i | 0 <= i < k :: jobs[i].id != "" && WaitsInQueue(docs, jobs[i].id))
    && (forall i, j | 0 <= i < j < k :: jobs[i].id != jobs[j].id)
  }

  /** What is left of the queue when `k` jobs are sent: the next head is dropped if it is stale by then. */
  function Remaining(docs: seq<TrainingRecord>, jobs: seq<Entry>, k: nat): seq<Entry>
    requires k <= |jobs|
  {
    if k < |jobs| && jobs[k].id != "" && !WaitsInQueue(docs, jobs[k].id) then jobs[k + 1..] else jobs[k..]
  }

  /** What a tick has done by `end` in which everything was answered. */
  ghost predicate SentFront(w: World, q: QueueName, end: World, k: nat, held: bool) {
    var jobs := Jobs(w.entries, q);
    && Sendable(w.docs, jobs, k) && (held || !Sendable(w.docs, jobs, k + 1))
    && end.deployed == w.deployed + Ids(jobs[..k])
    && Jobs(end.entries, q) == Remaining(end.docs, jobs, k)
    && forall id :: WaitsInQueue(end.docs, id) <==> WaitsInQueue(w.docs, id) && id !in Ids(jobs[..k])
  }

  /** Main result: a tick in which everything is answered sends exactly the longest front of the queue that has names
      and QUEUED records, all different, and takes it off the queue, unless the rate limiter holds a job back: then it
      stops there. Each round but the last sends one job. */
  lemma {:induction false} TickSendsFront(w: World, q: QueueName, rounds: seq<RoundAnswers>)
    requires WorldOk(w) && InOrder(w.entries) && IsTick(w, q, rounds)
    requires AllAnswered(rounds)
    ensures SentFront(w, q, Pull(w, q, rounds), |rounds| - 1, rounds[|rounds| - 1].limiter.Limited?)
    decreases |rounds|
  {
    var w', again := SendOrStop(w, q, rounds);
    if again {
      assert forall a | a in rounds[1..] :: a in rounds;
      TickSendsFront(w', q, rounds[1..]);
      FrontGrows(w, q, w', Pull(w', q, rounds[1..]), |rounds| - 2, rounds[|rounds| - 1].limiter.Limited?);
    }
  }

  /** The first round sends the head and leads to the rest of the tick, or it is the last and sends nothing. */
  lemma {:induction false} SendOrStop(w: World, q: QueueName, rounds: seq<RoundAnswers>)
    returns (w': World, again: bool)
    requires WorldOk(w) && InOrder(w.entries) && IsTick(w, q, rounds)
    requires Answers(rounds[0]) && !rounds[0].limiter.Unreachable?
    ensures WorldOk(w') && Pull(w, q, rounds) == if again then Pull(w', q, rounds[1..]) else w'
    ensures again ==> |rounds| > 1 && InOrder(w'.entries) && IsTick(w', q, rounds[1..]) && HeadSent(w, q, w')
    ensures !again ==> |rounds| == 1 && SentFront(w, q, w', 0, rounds[0].limiter.Limited?)
  {
    w', again := Unfolded(w, q, rounds);
    if HeadWaits(w, q) && rounds[0].limiter.Allowed? {
      var mid := SendingRound(w, q, rounds[0]);
    } else {
      var mid := StoppingRound(w, q, rounds[0]);
      NoneSent(w, q, w', rounds[0].limiter.Limited?);
    }
  }

  predicate AllAnswered(rounds: seq<RoundAnswers>) {
    forall a | a in rounds :: Answers(a) && !a.limiter.Unreachable?
  }

  /** So when the whole queue can be sent and nothing is held back, one tick sends it all and leaves the queue empty. */
  lemma {:induction false} TickEmptiesQueue(w: World, q: QueueName, rounds: seq<RoundAnswers>)
    requires WorldOk(w) && InOrder(w.entries) && IsTick(w, q, rounds)
    requires forall a | a in rounds :: Answers(a) && a.limiter.Allowed?
    requires Sendable(w.docs, Jobs(w.entries, q), |Jobs(w.entries, q)|)
    ensures Pull(w, q, rounds).deployed == w.deployed + Ids(Jobs(w.entries, q))
    ensures Jobs(Pull(w, q, rounds).entries, q) == []
    ensures |rounds| == |Jobs(w.entries, q)| + 1
  {
    var end := Pull(w, q, rounds);
    TickSendsFront(w, q, rounds);
    assert rounds[|rounds| - 1] in rounds;
    WholeFront(w, q, end, |rounds| - 1);
  }

  lemma {:induction false} WholeFront(w: World, q: QueueName, end: World, k: nat)
    requires SentFront(w, q, end, k, false) && Sendable(w.docs, Jobs(w.entries, q), |Jobs(w.entries, q)|)
    ensures k == |Jobs(w.entries, q)| && end.deployed == w.deployed + Ids(Jobs(w.entries, q))
    ensures Jobs(end.entries, q) == []
  {
    var jobs := Jobs(w.entries, q);
    if k < |jobs| { assert Sendable(w.docs, jobs, k + 1); }
    assert jobs[..|jobs|] == jobs;
  }

  lemma {:induction false} NoneSent(w: World, q: QueueName, end: World, held: bool)
    requires held || !HeadWaits(w, q)
    requires end.deployed == w.deployed && end.docs == w.docs
    requires Jobs(end.entries, q) == if HeadStale(w, q) then Jobs(w.entries, q)[1..] else Jobs(w.entries, q)
    ensures SentFront(w, q, end, 0, held)
  {
    assert Jobs(w.entries, q)[..0] == [] && Jobs(w.entries, q)[0..] == Jobs(w.entries, q);
  }

  lemma {:induction false} FrontGrows(w: World, q: QueueName, mid: World, end: World, k: nat, held: bool)
    requires HeadSent(w, q, mid) && SentFront(mid, q, end, k, held)
    ensures SentFront(w, q, end, k + 1, held)
  {
    var jobs := Jobs(w.entries, q);
    FrontIsLonger(w.docs, mid.docs, jobs, k, held);
    RemainingGrows(end.docs, jobs, k);
    SentIsLonger(w.docs, mid.docs, end.docs, w.deployed, jobs, k);
  }

  lemma {:induction false} FrontIsLonger(docs: seq<TrainingRecord>, mid: seq<TrainingRecord>, jobs: seq<Entry>, k: nat,
                                         held: bool)
    requires jobs != [] && jobs[0].id != "" && WaitsInQueue(docs, jobs[0].id)
    requires forall id :: WaitsInQueue(mid, id) <==> WaitsInQueue(docs, id) && id != jobs[0].id
    requires Sendable(mid, jobs[1..], k) && (held || !Sendable(mid, jobs[1..], k + 1))
    ensures Sendable(docs, jobs, k + 1) && (held || !Sendable(docs, jobs, k + 2))
  {
    SendableGrows(docs, mid, jobs, k);
    if k + 1 < |jobs| { SendableGrows(docs, mid, jobs, k + 1); }
  }

  lemma {:induction false} SentIsLonger(docs: seq<TrainingRecord>, mid: seq<TrainingRecord>, end: seq<TrainingRecord>,
                                        sent: seq<TrainingId>, jobs: seq<Entry>, k: nat)
    requires k < |jobs|
    requires forall id :: WaitsInQueue(mid, id) <==> WaitsInQueue(docs, id) && id != jobs[0].id
    requires forall id :: WaitsInQueue(end, id) <==> WaitsInQueue(mid, id) && id !in Ids(jobs[1..][..k])
    ensures sent + [jobs[0].id] + Ids(jobs[1..][..k]) == sent + Ids(jobs[..k + 1])
    ensures forall id :: WaitsInQueue(end, id) <==> WaitsInQueue(docs, id) && id !in Ids(jobs[..k + 1])
  {
    IdsOfPrefix(jobs, k);
  }

  lemma {:induction false} RemainingGrows(docs: seq<TrainingRecord>, jobs: seq<Entry>, k: nat)
    requires k < |jobs|
    ensures Remaining(docs, jobs[1..], k) == Remaining(docs, jobs, k + 1)
  {
  }

  /** A front of the rest, after a waiting head that is waiting no more, is a front with the head. */
  lemma {:induction false} SendableGrows(docs: seq<TrainingRecord>, mid: seq<TrainingRecord>, jobs: seq<Entry>, k: nat)
    requires k < |jobs| && jobs[0].id != "" && WaitsInQueue(docs, jobs[0].id)
    requires forall id :: WaitsInQueue(mid, id) <==> WaitsInQueue(docs, id) && id != jobs[0].id
    ensures Sendable(mid, jobs[1..], k) <==> Sendable(docs, jobs, k + 1)
  {
    assert forall i | 0 <= i < k :: jobs[1..][i] == jobs[i + 1];
    if Sendable(docs, jobs, k + 1) {
      forall i | 0 <= i < k ensures jobs[1..][i].id != "" && WaitsInQueue(mid, jobs[1..][i].id) {
        assert jobs[i + 1].id != jobs[0].id;
      }
    }
    if Sendable(mid, jobs[1..], k) {
      forall i | 0 <= i < k + 1 ensures jobs[i].id != "" && WaitsInQueue(docs, jobs[i].id) {
        if i > 0 { assert jobs[1..][i - 1] == jobs[i]; }
      }
      forall i, j | 0 <= i < j < k + 1 ensures jobs[i].id != jobs[j].id {
        assert jobs[1..][j - 1] == jobs[j];
        if i > 0 { assert jobs[1..][i - 1] == jobs[i]; }
      }
    }
  }
}
