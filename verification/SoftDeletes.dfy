// Soft deletes against requests already under way: exactly which steps bring a deleted record back, and exactly when a
// job that is no longer QUEUED can still be sent to LCM.
module SoftDeletes {
  import opened Entries
  import opened Protocol
  import opened AtMostOnce
  import NoLoss

  // ---- bringing a record back ----

  predicate Deleted(s: State, id: TrainingId) {
    id in s.docs && s.docs[id].deleted
  }

  /** A pull stores PENDING on the record as it read it, or an update stores a record that was not deleted when read. */
  predicate Revives(s: State, a: Action, id: TrainingId)
    requires Enabled(s, a)
  {
    || (IsStore(a) && s.threads[a.t].pc.id == id)
    || (a.Update? && a.id == id && !a.doc.deleted)
  }

  /** What a pull has read was not deleted. */
  ghost predicate FoundLive(s: State) {
    forall t | t in s.threads && s.threads[t].Pulling? && s.threads[t].pc.Found? :: !s.threads[t].pc.doc.deleted
  }

  lemma {:induction false} StepFoundLive(s: State, a: Action)
    requires FoundLive(s) && Enabled(s, a)
    ensures FoundLive(Apply(s, a))
  {
    var s' := Apply(s, a);
    forall t | t in s'.threads && s'.threads[t].Pulling? && s'.threads[t].pc.Found?
      ensures !s'.threads[t].pc.doc.deleted { if !ActsFor(a, t) { OthersWait(s, a, t); } }
  }

  lemma {:induction false} FoundLiveInvariant(ss: seq<State>, acts: seq<Action>)
    requires Behaviour(ss, acts) && Init(ss[0])
    ensures FoundLive(Last(ss))
    decreases |acts|
  {
    if acts != [] {
      Shorter(ss, acts);
      FoundLiveInvariant(ss[..|acts|], acts[..|acts| - 1]);
      StepFoundLive(ss[|acts| - 1], acts[|acts| - 1]);
    }
  }

  lemma {:induction false} PullRevivesIff(s: State, t: ThreadId, op: PullOp, id: TrainingId)
    requires FoundLive(s) && Enabled(s, Pull(t, op)) && Deleted(s, id)
    ensures Deleted(ApplyPull(s, t, op), id) <==> !Revives(s, Pull(t, op), id)
  {
  }

  /** A step brings a deleted record back exactly if it is one of the two. */
  lemma {:induction false} StepRevivesIff(s: State, a: Action, id: TrainingId)
    requires NoLoss.Inv(s) && FoundLive(s) && Enabled(s, a) && Deleted(s, id)
    ensures Deleted(Apply(s, a), id) <==> !Revives(s, a, id)
  {
    if a.Pull? { PullRevivesIff(s, a.t, a.pull, id); }
    if a.Create? { assert NoLoss.ThreadOk(s, s.threads[a.t]); }
  }

  lemma {:induction false} Reached(ss: seq<State>, acts: seq<Action>, n: nat)
    requires Behaviour(ss, acts) && Init(ss[0]) && n < |ss|
    ensures NoLoss.Inv(ss[n]) && FoundLive(ss[n])
  {
    NoLoss.Invariant(ss[..n + 1], acts[..n]);
    FoundLiveInvariant(ss[..n + 1], acts[..n]);
  }

  lemma {:induction false} UnrevivedStaysDeleted(ss: seq<State>, acts: seq<Action>, n: nat, m: nat, id: TrainingId)
    requires Behaviour(ss, acts) && Init(ss[0]) && n <= m < |ss| && Deleted(ss[n], id)
    requires forall i | n <= i < |acts| :: !Revives(ss[i], acts[i], id)
    ensures Deleted(ss[m], id)
  {
    if n < m {
      UnrevivedStaysDeleted(ss, acts, n, m - 1, id);
      Reached(ss, acts, m - 1);
      StepRevivesIff(ss[m - 1], acts[m - 1], id);
    }
  }

  /** Main result: from any point of a run on, a deleted record stays deleted if and only if no step is a store of
      PENDING by a pull that found the record before, or an update that read it before. */
  lemma {:induction false} StaysDeletedIff(ss: seq<State>, acts: seq<Action>, n: nat, id: TrainingId)
    requires Behaviour(ss, acts) && Init(ss[0]) && n < |ss| && Deleted(ss[n], id)
    ensures (forall m | n <= m < |ss| :: Deleted(ss[m], id))
      <==> forall i | n <= i < |acts| :: !Revives(ss[i], acts[i], id)
  {
    if forall m | n <= m < |ss| :: Deleted(ss[m], id) {
      forall i | n <= i < |acts| ensures !Revives(ss[i], acts[i], id) {
        assert Deleted(ss[i], id) && Deleted(ss[i + 1], id);
        Reached(ss, acts, i);
        StepRevivesIff(ss[i], acts[i], id);
      }
    }
    if forall i | n <= i < |acts| :: !Revives(ss[i], acts[i], id) {
      forall m | n <= m < |ss| ensures Deleted(ss[m], id) { UnrevivedStaysDeleted(ss, acts, n, m, id); }
    }
  }

  // ---- sending a job that is no longer QUEUED ----

  /** The thread has read the job as QUEUED or stored it as PENDING, and has still to send it. */
  predicate Carries(th: Thread, id: TrainingId) {
    (th.Pulling? && th.pc.Found? && th.pc.id == id) || AboutToSend(th, id)
  }

  ghost predicate Carried(s: State, id: TrainingId) {
    exists t | t in s.threads :: Carries(s.threads[t], id)
  }

  ghost predicate SentIn(s: State, ss: seq<State>, acts: seq<Action>, id: TrainingId) {
    Behaviour(ss, acts) && ss[0] == s && multiset(s.deployed)[id] < multiset(Last(ss).deployed)[id]
  }

  /** Some continuation sends the job to LCM, again or for the first time. */
  ghost predicate CanBeSent(s: State, id: TrainingId) {
    exists ss, acts :: SentIn(s, ss, acts, id)
  }

  lemma {:induction false} PullerCarriedBefore(s: State, t: ThreadId, op: PullOp, id: TrainingId)
    requires Enabled(s, Pull(t, op)) && !LiveQueued(s.docs, id) && t in ApplyPull(s, t, op).threads
    requires Carries(ApplyPull(s, t, op).threads[t], id)
    ensures Carries(s.threads[t], id)
  {
  }

  lemma {:induction false} CarriedBefore(s: State, a: Action, id: TrainingId)
    requires NoLoss.Inv(s) && NoLoss.Settled(s, id) && Enabled(s, a) && Carried(Apply(s, a), id)
    ensures Carried(s, id)
  {
    var t :| t in Apply(s, a).threads && Carries(Apply(s, a).threads[t], id);
    if !ActsFor(a, t) {
      OthersWait(s, a, t);
    } else if a.Pull? {
      PullerCarriedBefore(s, t, a.pull, id);
    } else if a.Create? {
      assert NoLoss.ThreadOk(s, s.threads[t]);
    }
    assert t in s.threads && Carries(s.threads[t], id);
  }

  lemma {:induction false} UncarriedUnsent(ss: seq<State>, acts: seq<Action>, id: TrainingId)
    requires Behaviour(ss, acts) && NoLoss.Inv(ss[0]) && NoLoss.Settled(ss[0], id) && !Carried(ss[0], id)
    ensures NoLoss.Inv(Last(ss)) && NoLoss.Settled(Last(ss), id) && !Carried(Last(ss), id)
    ensures multiset(Last(ss).deployed)[id] == multiset(ss[0].deployed)[id]
    decreases |acts|
  {
    if acts != [] {
      var n := |acts| - 1;
      Shorter(ss, acts);
      UncarriedUnsent(ss[..|acts|], acts[..n], id);
      NoLoss.StepInv(ss[n], acts[n]);
      NoLoss.SettledStays(ss[n], acts[n], id);
      if Carried(Last(ss), id) { CarriedBefore(ss[n], acts[n], id); }
      History(ss[n], acts[n]);
      if SentBy(ss[n], acts[n]) != [] { SentWasAboutTo(ss[n], acts[n]); }
    }
  }

  lemma {:induction false} CarriedCanBeSent(s: State, t: ThreadId, id: TrainingId)
    requires NoLoss.Settled(s, id) && t in s.threads && Carries(s.threads[t], id)
    ensures CanBeSent(s, id)
  {
    if AboutToSend(s.threads[t], id) {
      var a := Sending(s.threads[t], t);
      assert SentIn(s, [s, Apply(s, a)], [a], id);
    } else {
      var s1 := Apply(s, Pull(t, StorePending));
      var s2 := Apply(s1, Pull(t, Deploy(true)));
      assert s2.deployed == s.deployed + [id];
      assert SentIn(s, [s, s1, s2], [Pull(t, StorePending), Pull(t, Deploy(true))], id);
    }
  }

  /** Main result: a job whose record is deleted, or no longer QUEUED, can still be sent to LCM if and only if at that
      moment a pull has found it QUEUED or stored it as PENDING, or its create has, and has not sent it yet. */
  lemma {:induction false} SettledSentIff(ss: seq<State>, acts: seq<Action>, id: TrainingId)
    requires Behaviour(ss, acts) && Init(ss[0]) && id in Last(ss).docs && !LiveQueued(Last(ss).docs, id)
    ensures CanBeSent(Last(ss), id) <==> Carried(Last(ss), id)
  {
    var s := Last(ss);
    NoLoss.Invariant(ss, acts);
    if t :| t in s.threads && Carries(s.threads[t], id) { CarriedCanBeSent(s, t, id); }
    if ss', acts' :| SentIn(s, ss', acts', id) && !Carried(s, id) {
      UncarriedUnsent(ss', acts', id);
    }
  }
}
