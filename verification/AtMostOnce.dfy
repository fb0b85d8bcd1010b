// At-most-once deployment: exactly which stores of PENDING let a training be sent to LCM twice, over every interleaving
// of any number of trainers, creates, deletes and updates; and what callers can do about it.
module AtMostOnce {
  import opened Sequences
  import opened Entries
  import opened Protocol
  import opened Leases
  import opened Homes
  import opened Losses
  import NoLoss

  // ---- safe stores ----

  /** The thread has stored the job as PENDING and has still to send it. */
  predicate AboutToSend(th: Thread, id: TrainingId) {
    || (th.Pulling? && th.pc == Stored(id))
    || (th.Creating? && th.step == ToDeploy && th.newId == id)
  }

  predicate IsStore(a: Action) {
    a.Pull? && a.pull.StorePending?
  }

  /** A pull stores PENDING for a job that has not been sent and that nobody else is about to send. */
  ghost predicate Safe(s: State, a: Action)
    requires Enabled(s, a)
  {
    IsStore(a) ==>
      var id := s.threads[a.t].pc.id;
      id !in s.deployed && forall u | u in s.threads :: !AboutToSend(s.threads[u], id)
  }

  ghost predicate OnceInv(s: State) {
    && Distinct(s.deployed)
    && (forall t, id | t in s.threads && AboutToSend(s.threads[t], id) :: id !in s.deployed)
    && (forall t, u, id | t in s.threads && u in s.threads && AboutToSend(s.threads[t], id)
          && AboutToSend(s.threads[u], id) :: t == u)
  }

  ghost predicate Inv(s: State) {
    NoLoss.Inv(s) && SentInv(s) && OnceInv(s)
  }

  lemma {:induction false} PullerSends(s: State, t: ThreadId, op: PullOp, id: TrainingId)
    requires Enabled(s, Pull(t, op)) && t in ApplyPull(s, t, op).threads
    requires AboutToSend(ApplyPull(s, t, op).threads[t], id)
    ensures SubmittedBy(s, Pull(t, op)) == {id}
  {
  }

  /** Whoever is about to send was so before, or has just stored PENDING. */
  lemma {:induction false} SenderBefore(s: State, a: Action, t: ThreadId, id: TrainingId)
    requires Enabled(s, a) && t in Apply(s, a).threads && AboutToSend(Apply(s, a).threads[t], id)
    ensures || (t in s.threads && AboutToSend(s.threads[t], id) && !ActsFor(a, t))
            || (ActsFor(a, t) && SubmittedBy(s, a) == {id})
  {
    if !ActsFor(a, t) {
      OthersWait(s, a, t);
    } else if a.Pull? {
      PullerSends(s, t, a.pull, id);
    }
  }

  /** A job stored as PENDING, safely by a pull or by its own create, is neither sent nor about to be. */
  lemma {:induction false} NobodyElseSends(s: State, a: Action, id: TrainingId)
    requires Inv(s) && Enabled(s, a) && Safe(s, a) && id in SubmittedBy(s, a)
    ensures id !in s.deployed && forall u | u in s.threads :: !AboutToSend(s.threads[u], id)
  {
    if a.Create? {
      assert NoLoss.ThreadOk(s, s.threads[a.t]);
      assert id !in s.submitted;
    }
  }

  lemma {:induction false} SentWasAboutTo(s: State, a: Action)
    requires Enabled(s, a) && SentBy(s, a) != []
    ensures a.t in s.threads && SentBy(s, a) == [SentBy(s, a)[0]] && AboutToSend(s.threads[a.t], SentBy(s, a)[0])
  {
  }

  lemma {:induction false} SendersStayUnsent(s: State, a: Action, t: ThreadId, id: TrainingId)
    requires Inv(s) && Enabled(s, a) && Safe(s, a)
    requires t in Apply(s, a).threads && AboutToSend(Apply(s, a).threads[t], id)
    ensures id !in Apply(s, a).deployed
  {
    History(s, a);
    SenderBefore(s, a, t, id);
    if id in SubmittedBy(s, a) { NobodyElseSends(s, a, id); }
    if SentBy(s, a) != [] { SentWasAboutTo(s, a); }
  }

  lemma {:induction false} SendersStayUnique(s: State, a: Action, t: ThreadId, u: ThreadId, id: TrainingId)
    requires Inv(s) && Enabled(s, a) && Safe(s, a)
    requires t in Apply(s, a).threads && AboutToSend(Apply(s, a).threads[t], id)
    requires u in Apply(s, a).threads && AboutToSend(Apply(s, a).threads[u], id)
    ensures t == u
  {
    SenderBefore(s, a, t, id);
    SenderBefore(s, a, u, id);
    if id in SubmittedBy(s, a) { NobodyElseSends(s, a, id); }
  }

  lemma {:induction false} DeployedStayDistinct(s: State, a: Action)
    requires OnceInv(s) && Enabled(s, a)
    ensures Distinct(Apply(s, a).deployed)
  {
    History(s, a);
    if SentBy(s, a) != [] {
      SentWasAboutTo(s, a);
      DistinctAppend(s.deployed, SentBy(s, a)[0]);
    }
  }

  lemma {:induction false} DistinctAppend(ids: seq<TrainingId>, id: TrainingId)
    requires Distinct(ids)
    ensures Distinct(ids + [id]) <==> id !in ids
  {
    var all := ids + [id];
    if Distinct(all) {
      forall i | 0 <= i < |ids| ensures ids[i] != id { assert all[i] != all[|ids|]; }
    }
  }

  lemma {:induction false} StepInv(s: State, a: Action)
    requires Inv(s) && Enabled(s, a) && Safe(s, a)
    ensures Inv(Apply(s, a))
  {
    var s' := Apply(s, a);
    NoLoss.StepInv(s, a);
    StepSentInv(s, a);
    DeployedStayDistinct(s, a);
    forall t, id | t in s'.threads && AboutToSend(s'.threads[t], id) ensures id !in s'.deployed {
      SendersStayUnsent(s, a, t, id);
    }
    forall t, u, id | t in s'.threads && u in s'.threads && AboutToSend(s'.threads[t], id)
                      && AboutToSend(s'.threads[u], id) ensures t == u {
      SendersStayUnique(s, a, t, u, id);
    }
  }

  ghost predicate SafeRun(ss: seq<State>, acts: seq<Action>)
    requires Behaviour(ss, acts)
  {
    forall i | 0 <= i < |acts| :: Safe(ss[i], acts[i])
  }

  lemma {:induction false} Invariant(ss: seq<State>, acts: seq<Action>)
    requires Behaviour(ss, acts) && Inv(ss[0]) && SafeRun(ss, acts)
    ensures Inv(Last(ss))
    decreases |acts|
  {
    if acts != [] {
      Shorter(ss, acts);
      Invariant(ss[..|acts|], acts[..|acts| - 1]);
      StepInv(ss[|acts| - 1], acts[|acts| - 1]);
    }
  }

  /** A run in which every store is safe sends each training to LCM at most once. */
  lemma {:induction false} SafeDeploysOnce(ss: seq<State>, acts: seq<Action>)
    requires Behaviour(ss, acts) && Init(ss[0]) && SafeRun(ss, acts)
    ensures Distinct(Last(ss).deployed)
  {
    Invariant(ss, acts);
  }

  // ---- unsafe stores ----

  /** A run from `s` in which no pull stores PENDING. */
  ghost predicate QuietRun(s: State, ss: seq<State>, acts: seq<Action>) {
    Behaviour(ss, acts) && ss[0] == s && forall i | 0 <= i < |acts| :: !IsStore(acts[i])
  }

  /** Whatever the calls under way do without a further store of PENDING, no training has been sent twice then. */
  ghost predicate QuietlyOnce(s: State) {
    forall ss, acts | QuietRun(s, ss, acts) :: Distinct(Last(ss).deployed)
  }

  lemma {:induction false} QuietStep(s: State, a: Action)
    requires QuietlyOnce(s) && Enabled(s, a) && !IsStore(a)
    ensures QuietlyOnce(Apply(s, a))
  {
    forall ss, acts | QuietRun(Apply(s, a), ss, acts) ensures Distinct(Last(ss).deployed) {
      assert QuietRun(s, [s] + ss, [a] + acts);
      assert Last([s] + ss) == Last(ss);
    }
  }

  lemma {:induction false} QuietNow(s: State)
    requires QuietlyOnce(s)
    ensures Distinct(s.deployed)
  {
    assert QuietRun(s, [s], []);
  }

  /** The step that sends what a thread is about to send. */
  function Sending(th: Thread, t: ThreadId): Action {
    if th.Pulling? then Pull(t, Deploy(true)) else Create(t, SubmitDeploy)
  }

  lemma {:induction false} SendNow(s: State, t: ThreadId, id: TrainingId)
    requires t in s.threads && AboutToSend(s.threads[t], id) && QuietlyOnce(s)
    ensures var a := Sending(s.threads[t], t);
      Enabled(s, a) && QuietlyOnce(Apply(s, a)) && Apply(s, a).deployed == s.deployed + [id]
    ensures id !in s.deployed
  {
    var a := Sending(s.threads[t], t);
    QuietStep(s, a);
    QuietNow(s);
    QuietNow(Apply(s, a));
    DistinctAppend(s.deployed, id);
  }

  /** After a store that leaves no way to send a job twice, only the storing thread is about to send its job. */
  lemma {:induction false} QuietStoreWasSafe(s: State, a: Action)
    requires Enabled(s, a) && IsStore(a) && QuietlyOnce(Apply(s, a))
    ensures Safe(s, a)
  {
    var s', id := Apply(s, a), s.threads[a.t].pc.id;
    SendNow(s', a.t, id);
    forall u | u in s.threads ensures !AboutToSend(s.threads[u], id) {
      if u != a.t && AboutToSend(s.threads[u], id) {
        var m := Apply(s', Sending(s'.threads[a.t], a.t));
        SendNow(m, u, id);
      }
    }
  }

  /** Whatever follows, further stores included as long as they are safe. */
  ghost predicate SafelyOnce(s: State) {
    forall ss, acts | Behaviour(ss, acts) && ss[0] == s && SafeRun(ss, acts) :: Distinct(Last(ss).deployed)
  }

  lemma {:induction false} InvIsOnce(s: State)
    requires Inv(s)
    ensures QuietlyOnce(s) && SafelyOnce(s)
  {
    forall ss, acts | Behaviour(ss, acts) && ss[0] == s && SafeRun(ss, acts) ensures Distinct(Last(ss).deployed) {
      Invariant(ss, acts);
    }
    SafelyOnceIsQuietlyOnce(s);
  }

  lemma {:induction false} SafelyOnceIsQuietlyOnce(s: State)
    requires SafelyOnce(s)
    ensures QuietlyOnce(s)
  {
    forall ss, acts | QuietRun(s, ss, acts) ensures Distinct(Last(ss).deployed) { assert SafeRun(ss, acts); }
  }

  lemma {:induction false} SafeSoFar(ss: seq<State>, acts: seq<Action>, n: nat)
    requires Behaviour(ss, acts) && Init(ss[0]) && SafeRun(ss, acts) && n < |ss|
    ensures Inv(ss[n])
  {
    var begun, done := ss[..n + 1], acts[..n];
    forall k | 0 <= k < n ensures Safe(begun[k], done[k]) { assert Safe(ss[k], acts[k]); }
    Invariant(begun, done);
  }

  // ---- the exact condition ----

  /** Main result: after a run of safe stores, one more store leaves no way to send a training twice, be it with further
      safe stores or with none at all, if and only if it is safe. */
  lemma {:induction false} StoreDeploysOnceIff(ss: seq<State>, acts: seq<Action>, a: Action)
    requires Behaviour(ss, acts) && Init(ss[0]) && SafeRun(ss, acts) && Enabled(Last(ss), a) && IsStore(a)
    ensures SafelyOnce(Apply(Last(ss), a)) <==> Safe(Last(ss), a)
    ensures QuietlyOnce(Apply(Last(ss), a)) <==> Safe(Last(ss), a)
  {
    var s := Last(ss);
    if SafelyOnce(Apply(s, a)) { SafelyOnceIsQuietlyOnce(Apply(s, a)); }
    if QuietlyOnce(Apply(s, a)) { QuietStoreWasSafe(s, a); }
    if Safe(s, a) {
      Invariant(ss, acts);
      StepInv(s, a);
      InvIsOnce(Apply(s, a));
    }
  }

  /** Main result: the stores of a run are all safe if and only if at no point of it the calls under way can send a
      training twice. */
  lemma {:induction false} RunDeploysOnceIff(ss: seq<State>, acts: seq<Action>)
    requires Behaviour(ss, acts) && Init(ss[0])
    ensures SafeRun(ss, acts) <==> forall i | 0 <= i < |ss| :: QuietlyOnce(ss[i])
  {
    if forall i | 0 <= i < |ss| :: QuietlyOnce(ss[i]) {
      forall i | 0 <= i < |acts| ensures Safe(ss[i], acts[i]) {
        assert QuietlyOnce(ss[i + 1]);
        if IsStore(acts[i]) { QuietStoreWasSafe(ss[i], acts[i]); }
      }
    }
    if SafeRun(ss, acts) {
      forall i | 0 <= i < |ss| ensures QuietlyOnce(ss[i]) {
        SafeSoFar(ss, acts, i);
        InvIsOnce(ss[i]);
      }
    }
  }

  // ---- what makes stores safe ----

  /** The store of PENDING lands while the lock collection still holds the storing thread's own lease. */
  ghost predicate Fenced(s: State, a: Action) {
    IsStore(a) ==> Holds(s, a.t)
  }

  /** A finder of a job that someone else has submitted no longer holds its lease. */
  ghost predicate FinderInv(s: State) {
    forall t | Holds(s, t) && s.threads[t].Pulling? && s.threads[t].pc.Found? :: s.threads[t].pc.id !in s.submitted
  }

  ghost predicate FencedInv(s: State) {
    Inv(s) && LeaseInv(s) && HomeInv(s) && FinderInv(s)
  }

  lemma {:induction false} FencedIsSafe(s: State, a: Action)
    requires FencedInv(s) && Enabled(s, a) && Fenced(s, a)
    ensures Safe(s, a)
  {
  }

  lemma {:induction false} PullerFinds(s: State, t: ThreadId, op: PullOp)
    requires Enabled(s, Pull(t, op)) && t in ApplyPull(s, t, op).threads && ApplyPull(s, t, op).threads[t].pc.Found?
    ensures op == Find && LiveQueued(s.docs, ApplyPull(s, t, op).threads[t].pc.id)
  {
  }

  lemma {:induction false} FindersStayUnsent(s: State, a: Action, t: ThreadId)
    requires FencedInv(s) && Enabled(s, a) && Fenced(s, a)
    requires Holds(Apply(s, a), t) && Apply(s, a).threads[t].Pulling? && Apply(s, a).threads[t].pc.Found?
    ensures Apply(s, a).threads[t].pc.id !in Apply(s, a).submitted
  {
    History(s, a);
    LeaseBefore(s, a, t);
    LeasesChange(s, a);
    if ActsFor(a, t) {
      if a.Pull? { PullerFinds(s, t, a.pull); }
    } else {
      OthersWait(s, a, t);
      assert Holds(s, t) && NoLoss.ThreadOk(s, s.threads[t]) && ThreadHome(s, s.threads[t]);
      if s.threads[t].pc.id in SubmittedBy(s, a) { NoTwoFinders(s, a, t); }
    }
  }

  /** While one thread stores PENDING within its own lease, no other finder of the job holds its lease. */
  lemma {:induction false} NoTwoFinders(s: State, a: Action, t: ThreadId)
    requires FencedInv(s) && Enabled(s, a) && Fenced(s, a) && Holds(s, t) && !ActsFor(a, t)
    requires s.threads[t].Pulling? && s.threads[t].pc.Found?
    ensures s.threads[t].pc.id !in SubmittedBy(s, a)
  {
  }

  lemma {:induction false} StepFencedInv(s: State, a: Action)
    requires FencedInv(s) && Enabled(s, a) && Fenced(s, a)
    ensures FencedInv(Apply(s, a))
  {
    FencedIsSafe(s, a);
    StepInv(s, a);
    StepLeaseInv(s, a);
    StepHomeInv(s, a);
    forall t | Holds(Apply(s, a), t) && Apply(s, a).threads[t].Pulling? && Apply(s, a).threads[t].pc.Found?
      ensures Apply(s, a).threads[t].pc.id !in Apply(s, a).submitted { FindersStayUnsent(s, a, t); }
  }

  ghost predicate FencedRun(ss: seq<State>, acts: seq<Action>)
    requires Behaviour(ss, acts)
  {
    forall i | 0 <= i < |acts| :: Fenced(ss[i], acts[i])
  }

  /** Fenced stores are safe. */
  lemma {:induction false} FencedRunIsSafe(ss: seq<State>, acts: seq<Action>)
    requires Behaviour(ss, acts) && Init(ss[0]) && FencedRun(ss, acts)
    ensures SafeRun(ss, acts) && FencedInv(Last(ss))
    decreases |acts|
  {
    if acts != [] {
      var n := |acts| - 1;
      Shorter(ss, acts);
      FencedRunIsSafe(ss[..|acts|], acts[..n]);
      FencedIsSafe(ss[n], acts[n]);
      StepFencedInv(ss[n], acts[n]);
      forall i | 0 <= i < n ensures Safe(ss[i], acts[i]) { assert Safe(ss[..|acts|][i], acts[..n][i]); }
    }
  }

  /** A run in which every store of PENDING is fenced sends each training to LCM at most once. */
  lemma {:induction false} FencedDeploysOnce(ss: seq<State>, acts: seq<Action>)
    requires Behaviour(ss, acts) && Init(ss[0]) && FencedRun(ss, acts)
    ensures Distinct(Last(ss).deployed)
  {
    FencedRunIsSafe(ss, acts);
    SafeDeploysOnce(ss, acts);
  }

  /** The store of PENDING lands before the lease of the storing thread expires. */
  ghost predicate StoresInTime(ss: seq<State>, acts: seq<Action>)
    requires Behaviour(ss, acts)
  {
    forall i | 0 <= i < |acts| && acts[i].Pull? && acts[i].pull.StorePending? :: InTime(ss[i], acts[i].t)
  }

  lemma {:induction false} TimelyStoresAreFenced(ss: seq<State>, acts: seq<Action>)
    requires Behaviour(ss, acts) && Init(ss[0]) && StoresInTime(ss, acts) && OwnUnlocks(ss, acts)
    ensures FencedRun(ss, acts)
  {
    forall i | 0 <= i < |acts| ensures Fenced(ss[i], acts[i]) {
      var ss', acts' := ss[..i + 1], acts[..i];
      assert Behaviour(ss', acts');
      assert forall k | 0 <= k < i :: ss'[k] == ss[k] && acts'[k] == acts[k];
      forall k | 0 <= k < i ensures OwnUnlock(ss'[k], acts'[k]) { assert OwnUnlock(ss[k], acts[k]); }
      Exclusion(ss', acts');
    }
  }

  /** When no delete locks a queue, it is enough that PENDING is stored in time: Deploy, Dequeue and Unlock may all
      overrun the lease. */
  lemma {:induction false} PullersDeployOnce(ss: seq<State>, acts: seq<Action>)
    requires Behaviour(ss, acts) && Init(ss[0]) && StoresInTime(ss, acts) && OnlyPullersLock(acts)
    ensures Distinct(Last(ss).deployed)
  {
    PullersUnlockTheirOwn(ss, acts);
    TimelyStoresAreFenced(ss, acts);
    FencedDeploysOnce(ss, acts);
  }

  /** With deletes, it is enough that every Unlock is in time as well. */
  lemma {:induction false} TimelyRunsDeployOnce(ss: seq<State>, acts: seq<Action>)
    requires Behaviour(ss, acts) && Init(ss[0]) && StoresInTime(ss, acts) && UnlocksInTime(ss, acts)
    ensures Distinct(Last(ss).deployed)
  {
    TimelyUnlocksAreOwn(ss, acts);
    TimelyStoresAreFenced(ss, acts);
    FencedDeploysOnce(ss, acts);
  }
}
