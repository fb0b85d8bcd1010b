// Concrete runs that show which assumptions the protocol results need.
module Counterexamples {
  import opened Wrappers
  import opened Entries
  import opened JobStatus
  import opened Protocol
  import opened Leases
  import opened Steering
  import AtMostOnce
  import Fifo
  import Losses
  import SoftDeletes

  const JOB: TrainingId := "training-1"
  const OTHER: TrainingId := "training-2"
  const THIRD: TrainingId := "training-3"
  const ANY: QueueName := "ANY"
  const RECORD: Doc := Doc(QUEUED, false, "data", ["data"])
  const ENTRY: Entry := Entry(0, ANY, JOB, 0)

  /** Two finders of the same job both send it. */
  lemma {:induction false} BothSend(d: Discipline, s0: State, s: State, t: ThreadId, u: ThreadId) returns (s': State)
    requires Reach(d, s0, s) && t != u && t in s.threads && u in s.threads && JOB in s.docs && s.deployed == []
    requires s.threads[t].Pulling? && s.threads[t].pc == Found(JOB, RECORD)
    requires s.threads[u].Pulling? && s.threads[u].pc == Found(JOB, RECORD)
    requires d == TimelyStores || KeepsTime(d) ==> InTime(s, t) && InTime(s, u)
    ensures Reach(d, s0, s') && s'.deployed == [JOB, JOB]
  {
    s' := StoreSend(d, s0, s, t);
    s' := StoreSend(d, s0, s', u);
  }

  // ---- at-most-once ----

  /** A database with one QUEUED job in its queue. */
  function OneJob(): State {
    State(0, 0, 1, 0, 1, [ENTRY], {}, map[JOB := RECORD], map[], map[JOB := Birth(ANY, 0)], {}, [], {})
  }

  lemma {:induction false} OneJobIsInitial()
    ensures Init(OneJob())
  {
  }

  /** A delete of trainer A has run past its lease. */
  lemma {:induction false} DeleteOverruns() returns (s: State)
    ensures Reach(TimelyStores, OneJob(), s)
    ensures s == OneJob().(now := 61, nextLease := 1,
                           threads := map[1 := Deleting(Lease(0, ANY, "A", 60), JOB, Done(false))])
  {
    Start(TimelyStores, OneJob());
    s := Step(TimelyStores, OneJob(), OneJob(), DeleteLock(1, "A", ANY, JOB, 0));
    s := Step(TimelyStores, OneJob(), s, Delete(1, Skip));
    s := LeasesRunOut(TimelyStores, OneJob(), s, ANY);
  }

  lemma {:induction false} SiblingUnlocks() returns (s: State)
    ensures Reach(TimelyStores, OneJob(), s) && JOB in s.docs && s.deployed == [] && s.now == 61
    ensures s.threads == map[1 := Erasing(JOB, false), 2 := Pulling(Lease(1, ANY, "A", 121), Found(JOB, RECORD)),
                             3 := Pulling(Lease(2, ANY, "B", 121), Found(JOB, RECORD))]
  {
    OnlyEntry(ENTRY);
    s := DeleteOverruns();
    s := LockPeekFind(TimelyStores, OneJob(), s, 2, "A", ENTRY);
    s := Step(TimelyStores, OneJob(), s, Delete(1, ReleaseLock(true)));
    assert s.leases == {};
    s := LockPeekFind(TimelyStores, OneJob(), s, 3, "B", ENTRY);
  }

  /** Timely stores alone do not give at-most-once: a delete of trainer A overruns its lease, its late Unlock removes
      the lease of A's own puller, and trainer B gets into the section beside it. */
  lemma {:induction false} LateSiblingUnlockDeploysTwice() returns (ss: seq<State>, acts: seq<Action>)
    ensures Behaviour(ss, acts) && Init(ss[0]) && AtMostOnce.StoresInTime(ss, acts)
    ensures Last(ss).deployed == [JOB, JOB]
  {
    OneJobIsInitial();
    var s := SiblingUnlocks();
    s := BothSend(TimelyStores, OneJob(), s, 2, 3);
    ss, acts :| RunOf(TimelyStores, OneJob(), s, ss, acts);
    forall i | 0 <= i < |acts| && acts[i].Pull? && acts[i].pull.StorePending? ensures InTime(ss[i], acts[i].t) {
      assert Permits(TimelyStores, ss[i], acts[i]);
    }
  }

  /** A pull has run past its lease, and another trainer has found the same job. */
  lemma {:induction false} LateFinder() returns (s: State)
    ensures Reach(OnlyPullers, OneJob(), s) && JOB in s.docs && s.deployed == []
    ensures s.threads == map[2 := Pulling(Lease(0, ANY, "A", 60), Found(JOB, RECORD)),
                             3 := Pulling(Lease(1, ANY, "B", 121), Found(JOB, RECORD))]
  {
    OnlyEntry(ENTRY);
    Start(OnlyPullers, OneJob());
    s := LockPeekFind(OnlyPullers, OneJob(), OneJob(), 2, "A", ENTRY);
    s := LeasesRunOut(OnlyPullers, OneJob(), s, ANY);
    s := LockPeekFind(OnlyPullers, OneJob(), s, 3, "B", ENTRY);
  }

  /** A store of PENDING that lands after its lease does not give at-most-once either, even with pullers alone. */
  lemma {:induction false} LateStoreDeploysTwice() returns (ss: seq<State>, acts: seq<Action>)
    ensures Behaviour(ss, acts) && Init(ss[0]) && OnlyPullersLock(acts)
    ensures Last(ss).deployed == [JOB, JOB]
  {
    OneJobIsInitial();
    var s := LateFinder();
    s := BothSend(OnlyPullers, OneJob(), s, 2, 3);
    ss, acts :| RunOf(OnlyPullers, OneJob(), s, ss, acts);
    forall i | 0 <= i < |acts| ensures !acts[i].DeleteLock? { assert Permits(OnlyPullers, ss[i], acts[i]); }
  }

  // ---- no loss ----

  ghost predicate LosesJob(ss: seq<State>, acts: seq<Action>, id: TrainingId) {
    Behaviour(ss, acts) && Init(ss[0]) && Losses.OneEntryPerJob(ss[0]) && Losses.LostForGood(Last(ss), id)
    && Last(ss).entries == []
  }

  /** A database whose only queue entry belongs to a job already sent. */
  function StaleEntry(): State {
    State(0, 0, 1, 0, 1, [Entry(0, ANY, OTHER, 0)], {}, map[OTHER := RECORD.(status := PENDING)], map[],
          map[OTHER := Birth(ANY, 0)], {}, [], {})
  }

  lemma {:induction false} CreateSeesBusyQueue(d: Discipline) returns (s: State)
    ensures Reach(d, StaleEntry(), s)
    ensures s == StaleEntry().(home := map[OTHER := Birth(ANY, 0), JOB := Birth(ANY, 1)], births := 2,
                               threads := map[1 := Creating(ANY, JOB, RECORD, ToEnqueue)])
  {
    Start(d, StaleEntry());
    assert StaleEntry().entries[0] in Jobs(StaleEntry().entries, ANY);
    s := Step(d, StaleEntry(), StaleEntry(), CreateCheck(1, ANY, JOB, RECORD, true));
  }

  /** Then a pull cleans the queue up. */
  lemma {:induction false} QueueEmptied(d: Discipline) returns (s: State)
    requires d == Unrestricted || d == Punctual
    ensures Reach(d, StaleEntry(), s)
    ensures s == StaleEntry().(home := map[OTHER := Birth(ANY, 0), JOB := Birth(ANY, 1)], births := 2, nextLease := 1,
                               entries := [], threads := map[1 := Creating(ANY, JOB, RECORD, ToEnqueue)])
  {
    OnlyEntry(Entry(0, ANY, OTHER, 0));
    s := CreateSeesBusyQueue(d);
    s := LockPeekFind(d, StaleEntry(), s, 2, "A", Entry(0, ANY, OTHER, 0));
    s := DropUnlock(d, StaleEntry(), s, 2, Entry(0, ANY, OTHER, 0));
    assert s.threads == map[1 := Creating(ANY, JOB, RECORD, ToEnqueue)];
  }

  lemma {:induction false} StaleEntryIsInitial()
    ensures Fifo.OrderedStart(StaleEntry()) && Losses.OneEntryPerJob(StaleEntry())
  {
  }

  /** The create has enqueued and not stored; a pull looks for the record in vain. */
  lemma {:induction false} EntryFoundInGap() returns (s: State)
    ensures Reach(Unrestricted, StaleEntry(), s)
    ensures s.entries == [Entry(1, ANY, JOB, 0)] && s.leases == {Lease(1, ANY, "A", 60)}
    ensures s.stranded == {} && s.now == 0
    ensures s.threads == map[1 := Creating(ANY, JOB, RECORD, ToStore),
                             2 := Pulling(Lease(1, ANY, "A", 60), Stale(JOB, true))]
  {
    OnlyEntry(Entry(1, ANY, JOB, 0));
    s := QueueEmptied(Unrestricted);
    s := Step(Unrestricted, StaleEntry(), s, Create(1, Enqueue(0)));
    assert s.threads == map[1 := Creating(ANY, JOB, RECORD, ToStore)];
    s := LockPeekFind(Unrestricted, StaleEntry(), s, 2, "A", Entry(1, ANY, JOB, 0));
  }

  /** And it drops the entry. */
  lemma {:induction false} EntryDroppedInGap() returns (s: State)
    ensures Reach(Unrestricted, StaleEntry(), s)
    ensures s.entries == [] && s.stranded == {JOB} && s.threads == map[1 := Creating(ANY, JOB, RECORD, ToStore)]
  {
    OnlyEntry(Entry(1, ANY, JOB, 0));
    s := EntryFoundInGap();
    s := DropUnlock(Unrestricted, StaleEntry(), s, 2, Entry(1, ANY, JOB, 0));
    assert s.threads == map[1 := Creating(ANY, JOB, RECORD, ToStore)];
  }

  /** A pull between a create's enqueue and its store drops the entry; the job is then QUEUED and never runs. */
  lemma {:induction false} PullInCreateGapLosesJob() returns (ss: seq<State>, acts: seq<Action>)
    ensures LosesJob(ss, acts, JOB)
  {
    StaleEntryIsInitial();
    var s := EntryDroppedInGap();
    s := Step(Unrestricted, StaleEntry(), s, Create(1, StoreQueued));
    assert s.threads == map[];
    ss, acts :| RunOf(Unrestricted, StaleEntry(), s, ss, acts);
  }

  /** A delete takes the entry and then cannot delete the record. */
  lemma {:induction false} FailedDeleteLosesJob() returns (ss: seq<State>, acts: seq<Action>)
    ensures LosesJob(ss, acts, JOB)
  {
    OneJobIsInitial();
    OnlyEntry(ENTRY);
    Start(Unrestricted, OneJob());
    var s := LockTake(Unrestricted, OneJob(), OneJob(), 1, "A", ENTRY);
    s := ReleaseErase(Unrestricted, OneJob(), s, 1, false);
    assert s.threads == map[];
    ss, acts :| RunOf(Unrestricted, OneJob(), s, ss, acts);
  }

  const NEXT: Entry := Entry(1, ANY, OTHER, 0)

  /** A queue of two jobs. */
  function TwoJobs(): State {
    State(0, 0, 2, 0, 2, [ENTRY, NEXT], {}, map[JOB := RECORD, OTHER := RECORD], map[],
          map[JOB := Birth(ANY, 0), OTHER := Birth(ANY, 1)], {}, [], {})
  }

  lemma {:induction false} TwoEntries()
    ensures Earliest([ENTRY, NEXT], ANY) == Some(ENTRY) && ENTRY in [ENTRY, NEXT]
    ensures RemoveEntry([ENTRY, NEXT], ENTRY.key) == [NEXT]
  {
    var two := [ENTRY, NEXT];
    OnlyEntry(ENTRY);
    assert two[..1] == [ENTRY] && two[0] == ENTRY;
    assert RemoveEntry(two, ENTRY.key) == [] + [NEXT];
  }

  lemma {:induction false} TwoJobsIsInitial()
    ensures Init(TwoJobs()) && Losses.OneEntryPerJob(TwoJobs())
  {
  }

  lemma {:induction false} FirstFound() returns (s: State)
    ensures Reach(Unrestricted, TwoJobs(), s)
    ensures s == TwoJobs().(nextLease := 1, leases := {Lease(0, ANY, "A", 60)},
                            threads := map[1 := Pulling(Lease(0, ANY, "A", 60), Found(JOB, RECORD))])
  {
    TwoEntries();
    Start(Unrestricted, TwoJobs());
    s := LockPeekFind(Unrestricted, TwoJobs(), TwoJobs(), 1, "A", ENTRY);
  }

  /** A pull has sent the first of two jobs when its lease runs out. */
  lemma {:induction false} FirstSentLate() returns (s: State)
    ensures Reach(Unrestricted, TwoJobs(), s)
    ensures s == TwoJobs().(now := 61, nextLease := 1, submitted := {JOB}, deployed := [JOB],
                            docs := map[JOB := RECORD.(status := PENDING), OTHER := RECORD],
                            threads := map[1 := Pulling(Lease(0, ANY, "A", 60), Sent(JOB))])
  {
    s := FirstFound();
    s := StoreSend(Unrestricted, TwoJobs(), s, 1);
    s := LeasesRunOut(Unrestricted, TwoJobs(), s, ANY);
  }

  /** A delete of that job takes its entry; the pull then dequeues the next job. */
  lemma {:induction false} NextInHand() returns (s: State)
    ensures Reach(Unrestricted, TwoJobs(), s)
    ensures s.entries == [] && s.docs == map[JOB := RECORD.(status := PENDING), OTHER := RECORD]
    ensures s.threads == map[1 := Pulling(Lease(0, ANY, "A", 60), Holding(JOB, OTHER)),
                             2 := Deleting(Lease(1, ANY, "B", 121), JOB, Done(true))]
  {
    TwoEntries();
    OnlyEntry(NEXT);
    s := FirstSentLate();
    s := LockTake(Unrestricted, TwoJobs(), s, 2, "B", ENTRY);
    s := DequeueOther(Unrestricted, TwoJobs(), s, 1, NEXT);
  }

  /** And it cannot put that job back. */
  lemma {:induction false} FailedReenqueueLosesJob() returns (ss: seq<State>, acts: seq<Action>)
    ensures LosesJob(ss, acts, OTHER)
  {
    TwoJobsIsInitial();
    var s := NextInHand();
    s := LoseHeld(Unrestricted, TwoJobs(), s, 1);
    s := ReleaseErase(Unrestricted, TwoJobs(), s, 2, true);
    assert s.threads == map[];
    ss, acts :| RunOf(Unrestricted, TwoJobs(), s, ss, acts);
  }

  // ---- soft deletes ----

  /** A pull has found the job when its record is deleted. */
  lemma {:induction false} DeletedWhileFound() returns (s: State)
    ensures Reach(Punctual, OneJob(), s) && s.now == 0 && s.deployed == []
    ensures s.threads == map[2 := Pulling(Lease(0, ANY, "A", 60), Found(JOB, RECORD))]
    ensures s.docs == map[JOB := Doc(QUEUED, true, "", [])]
  {
    OnlyEntry(ENTRY);
    Start(Punctual, OneJob());
    s := LockPeekFind(Punctual, OneJob(), OneJob(), 2, "A", ENTRY);
    s := Step(Punctual, OneJob(), s, SoftDelete(JOB, QUEUED));
  }

  /** A run to a state and a run from there make one run. */
  lemma {:induction false} Joined(d: Discipline, s0: State, s: State, s': State)
    returns (ss: seq<State>, acts: seq<Action>, n: nat)
    requires Reach(d, s0, s) && Reach(d, s, s')
    ensures RunOf(d, s0, s', ss, acts) && n < |ss| && ss[n] == s
  {
    var ss1, acts1 :| RunOf(d, s0, s, ss1, acts1);
    var ss2, acts2 :| RunOf(d, s, s', ss2, acts2);
    n := |acts1|;
    ss, acts := ss1[..n] + ss2, acts1 + acts2;
    forall i | 0 <= i < |acts|
      ensures Enabled(ss[i], acts[i]) && ss[i + 1] == Apply(ss[i], acts[i]) && Permits(d, ss[i], acts[i])
    {
      if i < n {
        assert Permits(d, ss1[i], acts1[i]);
      } else {
        assert Permits(d, ss2[i - n], acts2[i - n]);
      }
    }
  }

  /** A delete that cannot lock the queue, because a pull has it, comes between the pull's read and its store: the
      record is brought back and the job is sent, although every section is in its lease. */
  lemma {:induction false} DeletedJobIsSent() returns (ss: seq<State>, acts: seq<Action>, n: nat)
    ensures Behaviour(ss, acts) && Init(ss[0]) && forall i | 0 <= i < |acts| :: Fifo.Punctual(ss[i], acts[i])
    ensures n < |ss| && SoftDeletes.Deleted(ss[n], JOB) && ss[n].deployed == []
    ensures Last(ss).docs == map[JOB := RECORD.(status := PENDING)] && Last(ss).deployed == [JOB]
  {
    OneJobIsInitial();
    var s := DeletedWhileFound();
    Start(Punctual, s);
    var s' := StoreSend(Punctual, s, s, 2);
    ss, acts, n := Joined(Punctual, OneJob(), s, s');
    forall i | 0 <= i < |acts| ensures Fifo.Punctual(ss[i], acts[i]) { assert Permits(Punctual, ss[i], acts[i]); }
  }

  // ---- creation order ----

  /** A create that reads size 0 goes straight to LCM. */
  lemma {:induction false} GoDirect(s0: State, s: State, t: ThreadId, id: TrainingId) returns (s': State)
    requires Reach(Punctual, s0, s) && t !in s.threads && id !in s.home && s.limit == 0 && Jobs(s.entries, ANY) == []
    ensures Reach(Punctual, s0, s')
    ensures s' == s.(home := s.home[id := Birth(ANY, s.births)], births := s.births + 1,
                     submitted := s.submitted + {id}, docs := s.docs[id := RECORD.(status := PENDING)],
                     deployed := s.deployed + [id])
  {
    s' := Step(Punctual, s0, s, CreateCheck(t, ANY, id, RECORD, true));
    assert s'.threads - {t} == s.threads;
    s' := SendCreate(Punctual, s0, s', t);
  }

  /** A create that reads size 0 goes straight to LCM while an older one has still to enqueue. */
  lemma {:induction false} YoungerGoesFirst() returns (s: State)
    ensures Reach(Punctual, StaleEntry(), s) && s.entries == [Entry(1, ANY, JOB, 0)] && s.leases == {}
    ensures s.threads == map[] && s.deployed == [THIRD] && s.now == 0 && JOB in s.docs && s.docs[JOB] == RECORD
    ensures s.home == map[OTHER := Birth(ANY, 0), JOB := Birth(ANY, 1), THIRD := Birth(ANY, 2)]
  {
    s := QueueEmptied(Punctual);
    s := GoDirect(StaleEntry(), s, 2, THIRD);
    s := Step(Punctual, StaleEntry(), s, Create(1, Enqueue(0)));
    s := Step(Punctual, StaleEntry(), s, Create(1, StoreQueued));
    assert s.threads == map[];
  }

  /** An interrupted create is overtaken, even if every section is in its lease, all read one clock and every size query
      succeeds: the younger job reaches LCM first. */
  lemma {:induction false} InterruptedCreateOvertaken() returns (ss: seq<State>, acts: seq<Action>)
    ensures Behaviour(ss, acts) && Fifo.OrderedStart(ss[0])
    ensures forall i | 0 <= i < |acts| :: Fifo.Punctual(ss[i], acts[i])
    ensures var s := Last(ss);
      s.deployed == [THIRD, JOB] && s.home == map[OTHER := Birth(ANY, 0), JOB := Birth(ANY, 1), THIRD := Birth(ANY, 2)]
  {
    StaleEntryIsInitial();
    OnlyEntry(Entry(1, ANY, JOB, 0));
    var s := YoungerGoesFirst();
    s := LockPeekFind(Punctual, StaleEntry(), s, 1, "A", Entry(1, ANY, JOB, 0));
    s := StoreSend(Punctual, StaleEntry(), s, 1);
    ss, acts :| RunOf(Punctual, StaleEntry(), s, ss, acts);
    forall i | 0 <= i < |acts| ensures Fifo.Punctual(ss[i], acts[i]) { assert Permits(Punctual, ss[i], acts[i]); }
  }
}
