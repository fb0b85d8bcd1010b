// A job stays in the queue its creator chose.
module Homes {
  import opened Entries
  import opened Protocol

  predicate At(s: State, id: TrainingId, q: QueueName) {
    id in s.home && s.home[id].queue == q
  }

  ghost predicate ThreadHome(s: State, th: Thread) {
    match th
    case Pulling(l, pc) => (
      match pc
      case Peeked(id) => At(s, id, l.queue)
      case Found(id, _) => At(s, id, l.queue)
      case Removing(_, e) => e.queue == l.queue && At(s, e.id, e.queue)
      case Holding(_, other) => At(s, other, l.queue)
      case _ => true)
    case Creating(q, id, _, _) => At(s, id, q)
    case _ => true
  }

  /** A job stays in the queue its creator chose. */
  ghost predicate HomeInv(s: State) {
    && (forall e | e in s.entries :: At(s, e.id, e.queue))
    && (forall t | t in s.threads :: ThreadHome(s, s.threads[t]))
  }

  lemma {:induction false} StepHomeInv(s: State, a: Action)
    requires HomeInv(s) && Enabled(s, a)
    ensures HomeInv(Apply(s, a))
  {
    var s' := Apply(s, a);
    History(s, a);
    forall t | t in s'.threads ensures ThreadHome(s', s'.threads[t]) {
      if ActsFor(a, t) { ActorStaysHome(s, a, t); } else { OthersWait(s, a, t); assert ThreadHome(s, s.threads[t]); }
    }
    forall e | e in s'.entries ensures At(s', e.id, e.queue) { EntriesStayHome(s, a, e); }
  }

  lemma {:induction false} EntriesStayHome(s: State, a: Action, e: Entry)
    requires HomeInv(s) && Enabled(s, a) && e in Apply(s, a).entries
    ensures At(Apply(s, a), e.id, e.queue)
  {
    History(s, a);
    EntriesChange(s, a);
    if e !in s.entries { assert e in InsertedBy(s, a) && ThreadHome(s, s.threads[a.t]); }
  }

  lemma {:induction false} ActorStaysHome(s: State, a: Action, t: ThreadId)
    requires HomeInv(s) && Enabled(s, a) && ActsFor(a, t) && t in Apply(s, a).threads
    ensures ThreadHome(Apply(s, a), Apply(s, a).threads[t])
  {
    History(s, a);
    if a.Create? { assert ThreadHome(s, s.threads[t]); }
    if a.Pull? { PullerStaysHome(s, t, a.pull); }
  }

  lemma {:induction false} PullerStaysHome(s: State, t: ThreadId, op: PullOp)
    requires HomeInv(s) && Enabled(s, Pull(t, op)) && t in ApplyPull(s, t, op).threads
    ensures ThreadHome(ApplyPull(s, t, op), ApplyPull(s, t, op).threads[t])
  {
    assert ThreadHome(s, s.threads[t]);
  }

  lemma {:induction false} HomeInvariant(ss: seq<State>, acts: seq<Action>)
    requires Behaviour(ss, acts) && Init(ss[0])
    ensures HomeInv(Last(ss))
    decreases |acts|
  {
    if acts != [] {
      Shorter(ss, acts);
      HomeInvariant(ss[..|acts|], acts[..|acts| - 1]);
      StepHomeInv(ss[|acts| - 1], acts[|acts| - 1]);
    }
  }
}
