// Every record that reaches submitJobToLCM still names a datastore it carries, so building the job
// configuration never dereferences a missing store.
module DatastoreSafety {
  import opened Entries
  import opened Protocol
  import NoLoss

  ghost predicate Inv(s: State) {
    && NoLoss.Inv(s)
    && (forall id | LiveQueued(s.docs, id) :: Resolves(s.docs[id]))
    && (forall t | t in s.threads && s.threads[t].Pulling? && s.threads[t].pc.Found? :: Resolves(s.threads[t].pc.doc))
  }

  /** A record that is live and QUEUED was so before, unchanged, or a create has just stored it. */
  lemma {:induction false} QueuedRecordBefore(s: State, a: Action, id: TrainingId)
    requires NoLoss.Inv(s) && Enabled(s, a) && LiveQueued(Apply(s, a).docs, id)
    ensures || (LiveQueued(s.docs, id) && Apply(s, a).docs[id] == s.docs[id])
            || (a.Create? && a.create.StoreQueued? && Apply(s, a).docs[id] == s.threads[a.t].newDoc)
  {
    if a.Pull? { PullQueuesNothing(s, a.t, a.pull, id); }
    if a.Create? { assert NoLoss.ThreadOk(s, s.threads[a.t]); }
  }

  lemma {:induction false} PullQueuesNothing(s: State, t: ThreadId, op: PullOp, id: TrainingId)
    requires Enabled(s, Pull(t, op)) && LiveQueued(ApplyPull(s, t, op).docs, id)
    ensures LiveQueued(s.docs, id) && ApplyPull(s, t, op).docs[id] == s.docs[id]
  {
  }

  lemma {:induction false} FinderBefore(s: State, a: Action, t: ThreadId)
    requires Enabled(s, a) && t in Apply(s, a).threads
    requires Apply(s, a).threads[t].Pulling? && Apply(s, a).threads[t].pc.Found?
    ensures var pc := Apply(s, a).threads[t].pc;
            || (t in s.threads && s.threads[t].Pulling? && s.threads[t].pc == pc)
            || (LiveQueued(s.docs, pc.id) && pc.doc == s.docs[pc.id])
  {
    if !ActsFor(a, t) { OthersWait(s, a, t); }
  }

  lemma {:induction false} StepInv(s: State, a: Action)
    requires Inv(s) && Enabled(s, a)
    ensures Inv(Apply(s, a))
  {
    var s' := Apply(s, a);
    NoLoss.StepInv(s, a);
    forall id | LiveQueued(s'.docs, id) ensures Resolves(s'.docs[id]) {
      QueuedRecordBefore(s, a, id);
      if a.Create? { assert NoLoss.ThreadOk(s, s.threads[a.t]); }
    }
    forall t | t in s'.threads && s'.threads[t].Pulling? && s'.threads[t].pc.Found?
      ensures Resolves(s'.threads[t].pc.doc) { FinderBefore(s, a, t); }
  }

  lemma {:induction false} Invariant(ss: seq<State>, acts: seq<Action>)
    requires Behaviour(ss, acts) && Init(ss[0])
    ensures Inv(Last(ss))
    decreases |acts|
  {
    if acts != [] {
      Shorter(ss, acts);
      Invariant(ss[..|acts|], acts[..|acts| - 1]);
      StepInv(ss[|acts| - 1], acts[|acts| - 1]);
    }
  }

  /** The record an action hands to submitJobToLCM. */
  function SubmittedDoc(s: State, a: Action): Doc
    requires Enabled(s, a) && SubmittedBy(s, a) != {}
  {
    if a.Pull? then s.threads[a.t].pc.doc else s.threads[a.t].newDoc
  }

  /** Main result: in every reachable state, whatever is submitted resolves its input data. */
  lemma {:induction false} SubmittedRecordsResolve(ss: seq<State>, acts: seq<Action>, a: Action)
    requires Behaviour(ss, acts) && Init(ss[0]) && Enabled(Last(ss), a) && SubmittedBy(Last(ss), a) != {}
    ensures Resolves(SubmittedDoc(Last(ss), a))
  {
    Invariant(ss, acts);
    if a.Create? { assert NoLoss.ThreadOk(Last(ss), Last(ss).threads[a.t]); }
  }
}
