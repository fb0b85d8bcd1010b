// Which QUEUED jobs are lost: exactly those a step of the run has stranded. What is lost stays lost.
module Losses {
  import opened Entries
  import opened Protocol
  import opened NoLoss

  // ---- each job has one place ----

  /** Where a job waits for somebody to take care of it. */
  datatype Place = InEntry(entry: Entry) | InThread(t: ThreadId) | Lost

  /** The thread has taken the job's entry and answers for it. */
  predicate AnswersFor(th: Thread, id: TrainingId) {
    || (th.Pulling? && th.pc.Holding? && th.pc.other == id)
    || (th.Deleting? && th.victim == id && th.at == Done(true))
    || th == Erasing(id, true)
  }

  predicate IsAt(s: State, id: TrainingId, p: Place) {
    match p
    case InEntry(e) => e in s.entries && e.id == id
    case InThread(t) => t in s.threads && AnswersFor(s.threads[t], id)
    case Lost => id in s.stranded
  }

  /** The job is known only to a create that has not enqueued it. */
  predicate Unplaced(th: Thread) {
    th.Creating? && th.step != ToStore
  }

  ghost predicate PlaceInv(s: State) {
    && (forall id, p, r | IsAt(s, id, p) && IsAt(s, id, r) :: p == r)
    && (forall id, p | IsAt(s, id, p) :: id in s.home)
    && (forall t, p | t in s.threads && Unplaced(s.threads[t]) :: !IsAt(s, s.threads[t].newId, p))
  }

  /** Where an action takes the job at a place, if it keeps it at all. */
  function Moved(s: State, a: Action, p: Place): Place
    requires Enabled(s, a)
  {
    match RemovedBy(s, a)
    case Some(key) =>
      if !p.InEntry? || p.entry.key != key then p
      else if a.Pull? && a.pull.DropStale? then Lost
      else InThread(a.t)
    case None =>
      if a.Pull? && p == InThread(a.t) && a.pull.Reenqueue? then InEntry(InsertedBy(s, a)[0])
      else if a.Pull? && p == InThread(a.t) && a.pull.ReenqueueFails? then Lost
      else if a.Delete? && p == InThread(a.t) && a.del.EraseFails? then Lost
      else p
  }

  /** Whatever has a place after a step had one before, from where the step moved it, unless a create has just enqueued
      it. */
  lemma {:induction false} PlaceBefore(s: State, a: Action, id: TrainingId, p': Place) returns (p: Place)
    requires KeysUnique(s) && Enabled(s, a) && IsAt(Apply(s, a), id, p')
    requires !(a.Create? && a.create.Enqueue? && s.threads[a.t].newId == id)
    ensures IsAt(s, id, p) && Moved(s, a, p) == p'
  {
    EntriesChange(s, a);
    match p'
    case InEntry(e) => p := EntryBefore(s, a, e);
    case InThread(t) => p := ThreadBefore(s, a, id, t);
    case Lost => p := StrandedBefore(s, a, id);
  }

  lemma {:induction false} EntryBefore(s: State, a: Action, e: Entry) returns (p: Place)
    requires KeysUnique(s) && Enabled(s, a) && e in Apply(s, a).entries
    requires !(a.Create? && a.create.Enqueue? && s.threads[a.t].newId == e.id)
    ensures IsAt(s, e.id, p) && Moved(s, a, p) == InEntry(e)
  {
    EntriesChange(s, a);
    p := if e in s.entries then InEntry(e) else InThread(a.t);
  }

  lemma {:induction false} ThreadBefore(s: State, a: Action, id: TrainingId, t: ThreadId) returns (p: Place)
    requires KeysUnique(s) && Enabled(s, a) && IsAt(Apply(s, a), id, InThread(t))
    ensures IsAt(s, id, p) && Moved(s, a, p) == InThread(t)
  {
    p := InThread(t);
    if !ActsFor(a, t) {
      OthersWait(s, a, t);
    } else if a.Pull? {
      p := InEntry(s.threads[t].pc.entry);
    } else if a.del.Take? {
      var th := s.threads[t];
      var e :| e in s.entries && e.key == a.del.key && e.queue == th.lease.queue && e.id == th.victim;
      p := InEntry(e);
    }
  }

  lemma {:induction false} StrandedBefore(s: State, a: Action, id: TrainingId) returns (p: Place)
    requires Enabled(s, a) && id in Apply(s, a).stranded
    ensures IsAt(s, id, p) && Moved(s, a, p) == Lost
  {
    StrandedBy(s, a, id);
    p := Lost;
    if id !in s.stranded {
      if a.Pull? && a.pull.DropStale? {
        var e :| e in s.entries && e.key == a.pull.key && e.queue == s.threads[a.t].lease.queue && e.id == id;
        p := InEntry(e);
      } else {
        p := InThread(a.t);
      }
    }
  }

  /** A create past its enqueue, or one that has still to come, has a place only as an entry it has just inserted. */
  lemma {:induction false} UnplacedBefore(s: State, a: Action, t: ThreadId)
    requires Inv(s) && Enabled(s, a) && t in Apply(s, a).threads && Unplaced(Apply(s, a).threads[t])
    ensures var id := Apply(s, a).threads[t].newId;
      && !(a.Create? && a.create.Enqueue? && s.threads[a.t].newId == id)
      && ((t in s.threads && Unplaced(s.threads[t]) && s.threads[t].newId == id) || (a.CreateCheck? && a.id == id))
  {
    if !ActsFor(a, t) { OthersWait(s, a, t); }
  }

  lemma {:induction false} StepPlaceInv(s: State, a: Action)
    requires Inv(s) && PlaceInv(s) && Enabled(s, a)
    ensures PlaceInv(Apply(s, a))
  {
    var s' := Apply(s, a);
    forall id, p, r | IsAt(s', id, p) && IsAt(s', id, r) ensures p == r { StepOnePlace(s, a, id, p, r); }
    forall id, p | IsAt(s', id, p) ensures id in s'.home { PlacedAtHome(s, a, id, p); }
    forall t, p | t in s'.threads && Unplaced(s'.threads[t]) ensures !IsAt(s', s'.threads[t].newId, p) {
      UnplacedBefore(s, a, t);
      if IsAt(s', s'.threads[t].newId, p) { var q := PlaceBefore(s, a, s'.threads[t].newId, p); }
    }
  }

  lemma {:induction false} PlacedAtHome(s: State, a: Action, id: TrainingId, p: Place)
    requires Inv(s) && PlaceInv(s) && Enabled(s, a) && IsAt(Apply(s, a), id, p)
    ensures id in Apply(s, a).home
  {
    History(s, a);
    if a.Create? && a.create.Enqueue? && s.threads[a.t].newId == id {
      assert ThreadOk(s, s.threads[a.t]);
    } else {
      var q := PlaceBefore(s, a, id, p);
    }
  }

  lemma {:induction false} StepOnePlace(s: State, a: Action, id: TrainingId, p: Place, r: Place)
    requires Inv(s) && PlaceInv(s) && Enabled(s, a) && IsAt(Apply(s, a), id, p) && IsAt(Apply(s, a), id, r)
    ensures p == r
  {
    if a.Create? && a.create.Enqueue? && s.threads[a.t].newId == id {
      OnlyTheNewEntry(s, a, p);
      OnlyTheNewEntry(s, a, r);
    } else {
      var p0 := PlaceBefore(s, a, id, p);
      var r0 := PlaceBefore(s, a, id, r);
      assert p0 == r0;
    }
  }

  lemma {:induction false} OnlyTheNewEntry(s: State, a: Action, p: Place)
    requires PlaceInv(s) && Enabled(s, a) && a.Create? && a.create.Enqueue?
    requires IsAt(Apply(s, a), s.threads[a.t].newId, p)
    ensures p == InEntry(InsertedBy(s, a)[0])
  {
    var id := s.threads[a.t].newId;
    EntriesChange(s, a);
    assert Unplaced(s.threads[a.t]) && !IsAt(s, id, p);
  }

  /** The persisted queues hold each job once. */
  ghost predicate OneEntryPerJob(s: State) {
    forall e, f | e in s.entries && f in s.entries && e.id == f.id :: e == f
  }

  lemma {:induction false} PlaceInvariant(ss: seq<State>, acts: seq<Action>)
    requires Behaviour(ss, acts) && Init(ss[0]) && OneEntryPerJob(ss[0])
    ensures PlaceInv(Last(ss)) && Inv(Last(ss))
    decreases |acts|
  {
    Invariant(ss, acts);
    if acts != [] {
      Shorter(ss, acts);
      PlaceInvariant(ss[..|acts|], acts[..|acts| - 1]);
      StepPlaceInv(ss[|acts| - 1], acts[|acts| - 1]);
    }
  }

  // ---- the results ----

  /** Nobody has the job: it has no entry, nobody is about to put one back, and no delete is under way. */
  ghost predicate Abandoned(s: State, id: TrainingId) {
    !Queued(s, id) && !InHand(s, id) && !BeingDeleted(s, id)
  }

  /** Main result: a live QUEUED job is abandoned exactly if a step of the run has stranded it. */
  lemma {:induction false} QueuedJobLostIff(ss: seq<State>, acts: seq<Action>, id: TrainingId)
    requires Behaviour(ss, acts) && Init(ss[0]) && OneEntryPerJob(ss[0]) && LiveQueued(Last(ss).docs, id)
    ensures Abandoned(Last(ss), id) <==> StrandedDuring(ss, acts, id)
  {
    StrandedIffDuring(ss, acts, id);
    NoQueuedJobLost(ss, acts, id);
    PlaceInvariant(ss, acts);
    if id in Last(ss).stranded { StrandedIsAbandoned(Last(ss), id); }
  }

  lemma {:induction false} StrandedIsAbandoned(s: State, id: TrainingId)
    requires PlaceInv(s) && id in s.stranded
    ensures Abandoned(s, id)
  {
    assert IsAt(s, id, Lost);
    if Queued(s, id) {
      var e :| e in s.entries && e.id == id;
      assert IsAt(s, id, InEntry(e));
    }
    if t :| t in s.threads && AnswersFor(s.threads[t], id) { assert IsAt(s, id, InThread(t)); }
  }

  // ---- lost for good ----

  /** A puller has peeked the job's entry or read its record, and could still submit it. */
  predicate LookedAt(th: Thread, id: TrainingId) {
    th.Pulling? && ((th.pc.Peeked? && th.pc.id == id) || (th.pc.Found? && th.pc.id == id))
  }

  ghost predicate NobodyLooks(s: State, id: TrainingId) {
    forall t | t in s.threads :: !LookedAt(s.threads[t], id)
  }

  lemma {:induction false} StrandedStaysUnseen(s: State, a: Action, id: TrainingId)
    requires Inv(s) && PlaceInv(s) && Enabled(s, a) && id in s.stranded && NobodyLooks(s, id)
    ensures var s' := Apply(s, a);
      id in s'.stranded && NobodyLooks(s', id) && (id in s'.submitted <==> id in s.submitted)
  {
    var s' := Apply(s, a);
    StrandedBy(s, a, id);
    StrandedIsAbandoned(s, id);
    History(s, a);
    assert IsAt(s, id, Lost);
    assert id !in SubmittedBy(s, a) by {
      if a.Create? && a.create.SubmitPending? { assert Unplaced(s.threads[a.t]); }
    }
    forall t | t in s'.threads ensures !LookedAt(s'.threads[t], id) {
      if !ActsFor(a, t) { OthersWait(s, a, t); } else if a.Pull? { PullerSeesEntry(s, t, a.pull, id); }
    }
  }

  lemma {:induction false} PullerSeesEntry(s: State, t: ThreadId, op: PullOp, id: TrainingId)
    requires Enabled(s, Pull(t, op)) && !LookedAt(s.threads[t], id) && !Queued(s, id)
    requires t in ApplyPull(s, t, op).threads
    ensures !LookedAt(ApplyPull(s, t, op).threads[t], id)
  {
  }

  /** Main result: once a job is stranded and no puller has it in view, it is not submitted to LCM in any continuation
      of the run; if it is QUEUED, it has not been submitted before either. */
  lemma {:induction false} StrandedNeverSubmitted(ss: seq<State>, acts: seq<Action>, n: nat, id: TrainingId)
    requires Behaviour(ss, acts) && Init(ss[0]) && OneEntryPerJob(ss[0]) && n < |ss|
    requires id in ss[n].stranded && NobodyLooks(ss[n], id)
    ensures id in Last(ss).stranded && NobodyLooks(Last(ss), id) && Abandoned(Last(ss), id)
    ensures id in Last(ss).submitted <==> id in ss[n].submitted
    ensures LiveQueued(ss[n].docs, id) ==> id !in Last(ss).submitted && id !in Last(ss).deployed
    decreases |acts|
  {
    PlaceInvariant(ss, acts);
    SentWasSubmitted(ss, acts);
    if n == |acts| {
      QueuedNotSubmitted(ss, acts, id);
    } else {
      Shorter(ss, acts);
      PlaceInvariant(ss[..|acts|], acts[..|acts| - 1]);
      StrandedNeverSubmitted(ss[..|acts|], acts[..|acts| - 1], n, id);
      StrandedStaysUnseen(ss[|acts| - 1], acts[|acts| - 1], id);
    }
    StrandedIsAbandoned(Last(ss), id);
  }

  /** The job is QUEUED and stranded, and nobody is at work. */
  ghost predicate LostForGood(s: State, id: TrainingId) {
    LiveQueued(s.docs, id) && id in s.stranded && s.threads == map[]
  }

  /** Such a job is never sent to LCM, however the run goes on. */
  lemma {:induction false} LostJobNeverRuns(ss: seq<State>, acts: seq<Action>, n: nat, id: TrainingId)
    requires Behaviour(ss, acts) && Init(ss[0]) && OneEntryPerJob(ss[0]) && n < |ss| && LostForGood(ss[n], id)
    ensures id !in Last(ss).deployed && !Queued(Last(ss), id)
  {
    StrandedNeverSubmitted(ss, acts, n, id);
  }

  // ---- who was sent was submitted, who was submitted is settled ----

  ghost predicate SentInv(s: State) {
    && (forall id | id in s.deployed :: id in s.submitted)
    && (forall id | id in s.submitted :: Settled(s, id))
    && (forall t | t in s.threads :: match s.threads[t]
          case Pulling(_, Stored(id)) => id in s.submitted
          case Creating(_, id, _, ToDeploy) => id in s.submitted
          case _ => true)
  }

  lemma {:induction false} StepSentInv(s: State, a: Action)
    requires Inv(s) && SentInv(s) && Enabled(s, a)
    ensures SentInv(Apply(s, a))
  {
    var s' := Apply(s, a);
    History(s, a);
    forall id | id in s'.submitted ensures Settled(s', id) { if id in s.submitted { SettledStays(s, a, id); } }
    forall t | t in s'.threads ensures match s'.threads[t]
          case Pulling(_, Stored(id)) => id in s'.submitted
          case Creating(_, id, _, ToDeploy) => id in s'.submitted
          case _ => true { if !ActsFor(a, t) { OthersWait(s, a, t); } }
  }

  lemma {:induction false} SentWasSubmitted(ss: seq<State>, acts: seq<Action>)
    requires Behaviour(ss, acts) && Init(ss[0])
    ensures SentInv(Last(ss))
    decreases |acts|
  {
    if acts != [] {
      Shorter(ss, acts);
      Invariant(ss[..|acts|], acts[..|acts| - 1]);
      SentWasSubmitted(ss[..|acts|], acts[..|acts| - 1]);
      StepSentInv(ss[|acts| - 1], acts[|acts| - 1]);
    }
  }

  lemma {:induction false} QueuedNotSubmitted(ss: seq<State>, acts: seq<Action>, id: TrainingId)
    requires Behaviour(ss, acts) && Init(ss[0])
    ensures LiveQueued(Last(ss).docs, id) ==> id !in Last(ss).submitted && id !in Last(ss).deployed
  {
    SentWasSubmitted(ss, acts);
  }
}
