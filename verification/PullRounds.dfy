// pullJobFromQueue calls itself after every submission. Without concurrent creates this ends: one goroutine makes at
// most as many submissions as there were QUEUED records when the run began, whatever the others do meanwhile.
module PullRounds {
  import opened Entries
  import opened Protocol

  ghost function QueuedIds(s: State): set<TrainingId> {
    set id | id in s.docs && LiveQueued(s.docs, id)
  }

  predicate IsPuller(th: Thread, owner: TrainerId, q: QueueName) {
    th.Pulling? && th.lease.owner == owner && th.lease.queue == q
  }

  /** The job the goroutine of `owner` for `q` has found and not yet stored as PENDING. */
  ghost function FoundIds(s: State, owner: TrainerId, q: QueueName): set<TrainingId> {
    set t | t in s.threads && IsPuller(s.threads[t], owner, q) && s.threads[t].pc.Found? :: s.threads[t].pc.id
  }

  /** Jobs the goroutine may still submit. */
  ghost function Chances(s: State, owner: TrainerId, q: QueueName): set<TrainingId> {
    QueuedIds(s) + FoundIds(s, owner, q)
  }

  predicate Submits(s: State, a: Action, owner: TrainerId, q: QueueName) {
    a.Pull? && a.pull.StorePending? && a.t in s.threads && IsPuller(s.threads[a.t], owner, q)
  }

  /** How often the goroutine stores PENDING in a run: the number of rounds after which it calls itself again. */
  ghost function Submissions(ss: seq<State>, acts: seq<Action>, owner: TrainerId, q: QueueName): nat
    requires |ss| == |acts| + 1
  {
    if acts == [] then 0
    else
      var n := |acts| - 1;
      Submissions(ss[..|acts|], acts[..n], owner, q) + if Submits(ss[n], acts[n], owner, q) then 1 else 0
  }

  ghost predicate Inv(s: State) {
    && (forall t | t in s.threads :: !s.threads[t].Creating?)
    && (forall t, u | t in s.threads && u in s.threads && s.threads[t].Pulling? && s.threads[u].Pulling?
          && s.threads[t].lease.owner == s.threads[u].lease.owner
          && s.threads[t].lease.queue == s.threads[u].lease.queue
          :: t == u)
  }

  lemma {:induction false} PullerBefore(s: State, a: Action, t: ThreadId)
    requires Enabled(s, a) && t in Apply(s, a).threads && Apply(s, a).threads[t].Pulling?
    ensures var th := Apply(s, a).threads[t];
            || (t in s.threads && s.threads[t].Pulling? && s.threads[t].lease == th.lease
                && (th.pc.Found? ==> s.threads[t].pc == th.pc || LiveQueued(s.docs, th.pc.id)))
            || (a.PullLock? && a.t == t && a.owner == th.lease.owner && a.q == th.lease.queue && th.pc.Locked?)
  {
    if !ActsFor(a, t) { OthersWait(s, a, t); }
  }

  lemma {:induction false} StepInv(s: State, a: Action)
    requires Inv(s) && Enabled(s, a) && !a.CreateCheck?
    ensures Inv(Apply(s, a))
  {
    var s' := Apply(s, a);
    forall t | t in s'.threads ensures !s'.threads[t].Creating? {
      if !ActsFor(a, t) { OthersWait(s, a, t); }
    }
    forall t, u | t in s'.threads && u in s'.threads && s'.threads[t].Pulling? && s'.threads[u].Pulling?
      && s'.threads[t].lease.owner == s'.threads[u].lease.owner
      && s'.threads[t].lease.queue == s'.threads[u].lease.queue
      ensures t == u
    {
      PullerBefore(s, a, t);
      PullerBefore(s, a, u);
    }
  }

  /** No step makes a record QUEUED, and a submission uses one chance up. */
  lemma {:induction false} ChancesShrink(s: State, a: Action, owner: TrainerId, q: QueueName)
    requires Inv(s) && Enabled(s, a) && !a.CreateCheck?
    ensures Chances(Apply(s, a), owner, q) <= Chances(s, owner, q)
    ensures Submits(s, a, owner, q) ==>
      var id := s.threads[a.t].pc.id; id in Chances(s, owner, q) && id !in Chances(Apply(s, a), owner, q)
  {
    var s' := Apply(s, a);
    forall id | id in FoundIds(s', owner, q) ensures id in Chances(s, owner, q) {
      var t :| t in s'.threads && IsPuller(s'.threads[t], owner, q)
               && s'.threads[t].pc.Found? && s'.threads[t].pc.id == id;
      PullerBefore(s, a, t);
      assert id in FoundIds(s, owner, q) || id in QueuedIds(s);
    }
    if Submits(s, a, owner, q) { SubmissionUsesChance(s, a, owner, q); }
  }

  lemma {:induction false} SubmissionUsesChance(s: State, a: Action, owner: TrainerId, q: QueueName)
    requires Inv(s) && Enabled(s, a) && Submits(s, a, owner, q)
    ensures var id := s.threads[a.t].pc.id; id in Chances(s, owner, q) && id !in Chances(Apply(s, a), owner, q)
  {
  }

  /** Main result: with no creates, a goroutine's submissions never exceed the QUEUED records at the start. */
  lemma {:induction false} RoundsBounded(ss: seq<State>, acts: seq<Action>, owner: TrainerId, q: QueueName)
    requires Behaviour(ss, acts) && Init(ss[0]) && forall i | 0 <= i < |acts| :: !acts[i].CreateCheck?
    ensures Submissions(ss, acts, owner, q) <= |QueuedIds(ss[0])|
    ensures Inv(Last(ss)) && Submissions(ss, acts, owner, q) + |Chances(Last(ss), owner, q)| <= |QueuedIds(ss[0])|
    decreases |acts|
  {
    if acts == [] {
      assert Chances(ss[0], owner, q) == QueuedIds(ss[0]);
    } else {
      var n := |acts| - 1;
      Shorter(ss, acts);
      RoundsBounded(ss[..|acts|], acts[..n], owner, q);
      StepInv(ss[n], acts[n]);
      ChancesShrink(ss[n], acts[n], owner, q);
      var before, after := Chances(ss[n], owner, q), Chances(Last(ss), owner, q);
      if Submits(ss[n], acts[n], owner, q) {
        Smaller(after, before - {ss[n].threads[acts[n].t].pc.id});
      } else {
        Smaller(after, before);
      }
    }
  }

  lemma {:induction false} Smaller(a: set<TrainingId>, b: set<TrainingId>)
    requires a <= b
    ensures |a| <= |b|
  {
    assert b == a + (b - a);
  }
}
