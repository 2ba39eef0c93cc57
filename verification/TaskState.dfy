/** The states of a task and the transitions the shim allows. */
module TaskState {
  import opened Options

  datatype State = Created | Starting | Started | Exited | Deleting

  datatype Transition = Start | Kill | Delete | Began | Stop

  /** The state after a transition, or `None` where the shim answers "invalid state transition". */
  function Next(s: State, t: Transition): Option<State> {
    match t
    case Start => if s.Created? then Some(Starting) else None
    case Kill => if s.Started? then Some(Started) else None
    case Delete => if s.Created? || s.Exited? then Some(Deleting) else None
    case Began => if s.Starting? then Some(Started) else None
    case Stop => if s.Started? || s.Starting? || s.Deleting? then Some(Exited) else None
  }

  /** The transitions a task can make. */
  const TRANSITIONS: set<(State, Transition, State)> := {
    (Created, Start, Starting),
    (Starting, Began, Started),
    (Started, Kill, Started),
    (Starting, Stop, Exited), (Started, Stop, Exited), (Deleting, Stop, Exited),
    (Created, Delete, Deleting), (Exited, Delete, Deleting)
  }

  /** `Next` allows these and no others. */
  lemma NextAllowsExactly(s: State, t: Transition, s': State)
    ensures Next(s, t) == Some(s') <==> (s, t, s') in TRANSITIONS
  {
  }

  /** How far a task has come: nothing leads back, except that a failed delete may be retried. */
  function Rank(s: State): nat {
    match s
    case Created => 0
    case Starting => 1
    case Started => 2
    case Exited => 3
    case Deleting => 3
  }

  function After(s: State, ts: seq<Transition>): State {
    if ts == [] then s
    else
      var before := After(s, ts[..|ts| - 1]);
      match Next(before, ts[|ts| - 1])
      case Some(s') => s'
      case None => before
  }

  /** Whatever transitions are asked for, a task never goes back; once down it only exits or is deleted. */
  lemma {:induction false} NeverBack(s: State, ts: seq<Transition>)
    ensures Rank(After(s, ts)) >= Rank(s)
  {
    if ts != [] { NeverBack(s, ts[..|ts| - 1]); }
  }

  /** `TaskState` as the shim holds it: each call rewrites the state in place or leaves it and fails. */
  class Task {
    var state: State

    constructor ()
      ensures state.Created?
    {
      state := Created;
    }

    method Apply(t: Transition) returns (ok: bool)
      modifies this
      ensures ok <==> exists s :: (old(state), t, s) in TRANSITIONS
      ensures if ok then (old(state), t, state) in TRANSITIONS else state == old(state)
      ensures Rank(state) >= Rank(old(state))
    {
      var next := Next(state, t);
      ok := next.Some?;
      ghost var before := state;
      if ok { state := next.value; }
      forall s ensures Next(before, t) == Some(s) <==> (before, t, s) in TRANSITIONS {
        NextAllowsExactly(before, t, s);
      }
    }
  }
}
