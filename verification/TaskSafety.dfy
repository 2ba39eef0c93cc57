/** What every interleaving of Task requests keeps. */
module TaskSafety {
  import opened Options
  import opened TaskState
  import opened TaskService

  ghost predicate InstanceInv(i: Instance) {
    && i.starts <= 1
    && (i.starts == 1 <==> i.starter.Some?)
    && (i.exit.Some? ==> i.starts == 1)
    && match i.state
       case Created => i.starts == 0 && i.pid.None? && !i.down
       case Starting => i.starts == 1 && i.pid.None? && !i.down && i.lock.Some?
       case Started => i.starts == 1 && i.pid.Some? && !i.down
       case _ => i.down && (i.pid.None? || i.exit.Some?)
  }

  ghost predicate RequestInv(w: World, r: nat, req: Request) {
    && RefersTo(req, |w.all|)
    && match req
       case StartRunning(k) => w.all[k].lock == Some(r) && w.all[k].state.Starting? && w.all[k].starter == Some(r)
       case StartNotify(k, pid) => w.all[k].pid == Some(pid) && w.all[k].starter == Some(r)
       case WatchWait(k, pid) => w.all[k].pid == Some(pid) && w.all[k].starter == Some(r)
       case WatchLock(k, pid, v) => w.all[k].pid == Some(pid) && w.all[k].starter == Some(r) && w.all[k].exit == Some(v)
       case WatchEmit(k, pid, v) => w.all[k].pid == Some(pid) && w.all[k].starter == Some(r) && w.all[k].exit == Some(v)
       case KillRunning(k) => w.all[k].lock == Some(r) && w.all[k].state.Started?
       case DeleteRunning(k, _) => w.all[k].lock == Some(r) && w.all[k].state.Deleting?
       case DeleteRemove(k, _, seen) => seen.Some? ==> w.all[k].exit == seen
       case WaitLock(k, v) => w.all[k].exit == Some(v)
       case _ => true
  }

  ghost predicate Inv(w: World) {
    && (forall k :: 0 <= k < |w.all| ==> InstanceInv(w.all[k]))
    && (forall id :: id in w.live ==> w.live[id] < |w.all|)
    && (forall r :: r in w.requests ==> RequestInv(w, r, w.requests[r]))
    && (forall n :: 0 <= n < |w.reports| ==>
          w.reports[n].k < |w.all| && w.all[w.reports[n].k].exit == Some(w.reports[n].v))
  }

  /** What a step of request `r` can do to an instance: cells stay, and another's lock protects the state. */
  ghost predicate Evolves(r: nat, i: Instance, i': Instance) {
    && InstanceInv(i')
    && i'.id == i.id && i'.deletes >= i.deletes && Rank(i'.state) >= Rank(i.state)
    && (i.pid.Some? ==> i'.pid == i.pid)
    && (i.exit.Some? ==> i'.exit == i.exit)
    && (i.starter.Some? ==> i'.starter == i.starter)
    && (i.lock.Some? && i.lock != Some(r) ==> i'.lock == i.lock && i'.state == i.state)
  }

  ghost predicate AllEvolve(r: nat, w: World, w': World) {
    && |w.all| <= |w'.all|
    && (forall k :: 0 <= k < |w.all| ==> Evolves(r, w.all[k], w'.all[k]))
    && (forall k :: |w.all| <= k < |w'.all| ==> InstanceInv(w'.all[k]))
  }

  predicate TakesLock(req: Request) {
    req.StartLock? || req.KillLock? || req.DeleteLock?
  }

  predicate ReleasesLock(req: Request) {
    req.StartRunning? || req.KillRunning? || req.DeleteRunning?
  }

  lemma LockingEvolves(w: World, r: nat, req: Request, ok: bool, value: nat, k: nat)
    requires TakesLock(req) && RequestInv(w, r, req) && k < |w.all| && InstanceInv(w.all[k])
    ensures k < |StepOn(w, r, req, ok, value).all|
    ensures Evolves(r, w.all[k], StepOn(w, r, req, ok, value).all[k])
  {
    if req.k != k { assert StepOn(w, r, req, ok, value).all[k] == w.all[k]; }
  }

  lemma ReleasingEvolves(w: World, r: nat, req: Request, ok: bool, value: nat, k: nat)
    requires ReleasesLock(req) && RequestInv(w, r, req) && k < |w.all| && InstanceInv(w.all[k])
    ensures k < |StepOn(w, r, req, ok, value).all|
    ensures Evolves(r, w.all[k], StepOn(w, r, req, ok, value).all[k])
  {
  }

  lemma OtherwiseEvolves(w: World, r: nat, req: Request, ok: bool, value: nat, k: nat)
    requires !TakesLock(req) && !ReleasesLock(req)
    requires RequestInv(w, r, req) && k < |w.all| && InstanceInv(w.all[k])
    ensures k < |StepOn(w, r, req, ok, value).all|
    ensures Evolves(r, w.all[k], StepOn(w, r, req, ok, value).all[k])
  {
  }

  lemma StepEvolvesAt(w: World, r: nat, req: Request, ok: bool, value: nat, k: nat)
    requires RequestInv(w, r, req) && k < |w.all| && InstanceInv(w.all[k])
    ensures k < |StepOn(w, r, req, ok, value).all|
    ensures Evolves(r, w.all[k], StepOn(w, r, req, ok, value).all[k])
  {
    if TakesLock(req) {
      LockingEvolves(w, r, req, ok, value, k);
    } else if ReleasesLock(req) {
      ReleasingEvolves(w, r, req, ok, value, k);
    } else {
      OtherwiseEvolves(w, r, req, ok, value, k);
    }
  }

  lemma NewInstances(w: World, r: nat, req: Request, ok: bool, value: nat, k: nat)
    requires RequestInv(w, r, req) && |w.all| <= k < |StepOn(w, r, req, ok, value).all|
    ensures InstanceInv(StepOn(w, r, req, ok, value).all[k])
  {
  }

  lemma StepEvolves(w: World, r: nat, ok: bool, value: nat)
    requires Inv(w) && r in w.requests
    ensures RequestInv(w, r, w.requests[r])
    ensures AllEvolve(r, w, StepOn(w, r, w.requests[r], ok, value))
  {
    var req := w.requests[r];
    var w' := StepOn(w, r, req, ok, value);
    if |w.all| > 0 { StepEvolvesAt(w, r, req, ok, value, 0); }
    forall k | 0 <= k < |w.all| ensures k < |w'.all| && Evolves(r, w.all[k], w'.all[k]) {
      StepEvolvesAt(w, r, req, ok, value, k);
    }
    forall k | |w.all| <= k < |w'.all| ensures InstanceInv(w'.all[k]) {
      NewInstances(w, r, req, ok, value, k);
    }
    assert |w.all| <= |w'.all|;
  }

  lemma OwnStartKept(w: World, r: nat, req: Request, ok: bool, value: nat)
    requires RequestInv(w, r, req) && (req.StartLock? || req.StartRunning?) && InstanceInv(w.all[req.k])
    ensures var w' := StepOn(w, r, req, ok, value);
            w' == w || (r in w'.requests && RequestInv(w', r, w'.requests[r]))
  {
  }

  lemma OwnBeginKept(w: World, r: nat, call: Call)
    requires forall id :: id in w.live ==> w.live[id] < |w.all|
    ensures r in BeginStep(w, r, call).requests
    ensures RequestInv(BeginStep(w, r, call), r, BeginStep(w, r, call).requests[r])
  {
  }

  lemma OwnOtherKept(w: World, r: nat, req: Request, ok: bool, value: nat)
    requires RequestInv(w, r, req) && !req.StartLock? && !req.StartRunning? && !req.Begin?
    ensures var w' := StepOn(w, r, req, ok, value);
            w' == w || (r in w'.requests && RequestInv(w', r, w'.requests[r]))
  {
  }

  lemma OwnRequestKept(w: World, r: nat, req: Request, ok: bool, value: nat)
    requires RequestInv(w, r, req)
    requires forall id :: id in w.live ==> w.live[id] < |w.all|
    requires req.StartRunning? || req.StartLock? ==> InstanceInv(w.all[req.k])
    ensures var w' := StepOn(w, r, req, ok, value);
            w' == w || (r in w'.requests && RequestInv(w', r, w'.requests[r]))
  {
    if req.StartLock? || req.StartRunning? {
      OwnStartKept(w, r, req, ok, value);
    } else if req.Begin? {
      OwnBeginKept(w, r, req.call);
    } else {
      OwnOtherKept(w, r, req, ok, value);
    }
  }

  lemma OtherRequestKept(w: World, w': World, r: nat, other: nat, req: Request)
    requires AllEvolve(r, w, w') && other != r && RequestInv(w, other, req)
    ensures RequestInv(w', other, req)
  {
    if !req.Begin? && !req.CreateInsert? && !req.ShutdownSet? && !req.Done? {
      assert Evolves(r, w.all[req.k], w'.all[req.k]);
    }
  }

  lemma OthersUntouched(w: World, r: nat, req: Request, ok: bool, value: nat, x: nat)
    requires r in w.requests && RefersTo(req, |w.all|)
    ensures var w' := StepOn(w, r, req, ok, value);
            && (x in w'.requests <==> x in w.requests)
            && (x in w.requests && x != r ==> w'.requests[x] == w.requests[x])
  {
  }

  lemma LiveInRange(w: World, r: nat, req: Request, ok: bool, value: nat)
    requires RefersTo(req, |w.all|) && forall id :: id in w.live ==> w.live[id] < |w.all|
    ensures var w' := StepOn(w, r, req, ok, value);
            forall id :: id in w'.live ==> w'.live[id] < |w'.all|
  {
  }

  lemma StepTouches(w: World, r: nat, ok: bool, value: nat)
    requires Inv(w) && r in w.requests && RefersTo(w.requests[r], |w.all|)
    ensures var w' := StepOn(w, r, w.requests[r], ok, value);
            && w'.requests.Keys == w.requests.Keys
            && (forall x :: x in w.requests && x != r ==> w'.requests[x] == w.requests[x])
            && (forall id :: id in w'.live ==> w'.live[id] < |w'.all|)
  {
    var w' := StepOn(w, r, w.requests[r], ok, value);
    forall x
      ensures x in w'.requests <==> x in w.requests
      ensures x in w.requests && x != r ==> w'.requests[x] == w.requests[x]
    {
      OthersUntouched(w, r, w.requests[r], ok, value, x);
    }
    LiveInRange(w, r, w.requests[r], ok, value);
  }

  lemma ReportsKept(w: World, r: nat, ok: bool, value: nat)
    requires Inv(w) && r in w.requests && RequestInv(w, r, w.requests[r])
    requires AllEvolve(r, w, StepOn(w, r, w.requests[r], ok, value))
    ensures var w' := StepOn(w, r, w.requests[r], ok, value);
            forall n :: 0 <= n < |w'.reports| ==>
              w'.reports[n].k < |w'.all| && w'.all[w'.reports[n].k].exit == Some(w'.reports[n].v)
  {
    var w' := StepOn(w, r, w.requests[r], ok, value);
    forall n | 0 <= n < |w'.reports|
      ensures w'.reports[n].k < |w'.all| && w'.all[w'.reports[n].k].exit == Some(w'.reports[n].v)
    {
      if n < |w.reports| {
        assert w'.reports[n] == w.reports[n];
        assert Evolves(r, w.all[w.reports[n].k], w'.all[w.reports[n].k]);
      }
    }
  }

  lemma DoKeepsInv(w: World, a: Action)
    requires Inv(w)
    ensures Inv(Do(w, a))
  {
    var w' := Do(w, a);
    match a
    case Receive(r, _) =>
      forall x | x in w'.requests ensures RequestInv(w', x, w'.requests[x]) {
        if x in w.requests { assert RequestInv(w, x, w.requests[x]); }
      }
    case ProcessExit(k, v) =>
      forall x | x in w'.requests ensures RequestInv(w', x, w'.requests[x]) {
        assert RequestInv(w, x, w.requests[x]);
      }
    case Step(r, ok, value) =>
      if r in w.requests {
        StepEvolves(w, r, ok, value);
        OwnRequestKept(w, r, w.requests[r], ok, value);
        StepTouches(w, r, ok, value);
        ReportsKept(w, r, ok, value);
        forall x | x in w'.requests ensures RequestInv(w', x, w'.requests[x]) {
          if x != r { OtherRequestKept(w, w', r, x, w.requests[x]); }
        }
      }
  }

  lemma {:induction false} RunKeepsInv(actions: seq<Action>)
    ensures Inv(Exec(INIT, actions))
  {
    if actions != [] {
      RunKeepsInv(actions[..|actions| - 1]);
      DoKeepsInv(Exec(INIT, actions[..|actions| - 1]), actions[|actions| - 1]);
    }
  }

  // ----- lifecycle -----

  /**
   In every interleaving: `Instance::start` runs at most once; kill is forwarded only to a task whose
   start succeeded and that has never been Exited or Deleting; delete is forwarded only when the pid
   is unset or the exit code is known; and the transition results the code discards are never errors.
   */
  lemma LifecycleSafety(actions: seq<Action>, r: nat, k: nat)
    requires r in Exec(INIT, actions).requests && k < |Exec(INIT, actions).all|
    ensures var w := Exec(INIT, actions);
            var i := w.all[k];
            && i.starts <= 1
            && (w.requests[r] == KillRunning(k) ==> i.pid.Some? && !i.down)
            && (w.requests[r].DeleteRunning? && w.requests[r].k == k ==>
                  && (i.pid.None? || i.exit.Some?)
                  && Next(i.state, Stop).Some?)
            && (w.requests[r] == StartRunning(k) ==> Next(i.state, Began).Some? && Next(i.state, Stop).Some?)
  {
    RunKeepsInv(actions);
    assert RequestInv(Exec(INIT, actions), r, Exec(INIT, actions).requests[r]);
  }

  lemma StateAfter(w: World, a: Action, k: nat)
    requires Inv(w) && k < |w.all|
    ensures k < |Do(w, a).all| && Rank(Do(w, a).all[k].state) >= Rank(w.all[k].state)
  {
    if a.Step? && a.r in w.requests {
      StepEvolves(w, a.r, a.ok, a.value);
      assert Evolves(a.r, w.all[k], Do(w, a).all[k]);
    }
  }

  /**
   In every interleaving an instance never goes back to an earlier stage, although `wait` assigns
   Exited without asking for a transition.
   */
  lemma {:induction false} InstancesNeverGoBack(actions: seq<Action>, n: nat, k: nat)
    requires n <= |actions| && k < |Exec(INIT, actions[..n]).all|
    ensures k < |Exec(INIT, actions).all|
    ensures Rank(Exec(INIT, actions).all[k].state) >= Rank(Exec(INIT, actions[..n]).all[k].state)
  {
    if n == |actions| {
      assert actions[..n] == actions;
    } else {
      var m := |actions| - 1;
      var before := actions[..m];
      assert before[..n] == actions[..n] && actions == before + [actions[m]];
      InstancesNeverGoBack(before, n, k);
      RunKeepsInv(before);
      StateAfter(Exec(INIT, before), actions[m], k);
      ExecSnoc(INIT, before, actions[m]);
    }
  }

  /** The lock makes the calls into one instance exclusive. */
  lemma CallsIntoInstanceExclude(actions: seq<Action>, r: nat, other: nat, k: nat)
    requires var w := Exec(INIT, actions);
             && r in w.requests && InCall(w.requests[r], k)
             && other in w.requests && InCall(w.requests[other], k)
    ensures r == other
  {
    RunKeepsInv(actions);
    assert RequestInv(Exec(INIT, actions), r, Exec(INIT, actions).requests[r]);
    assert RequestInv(Exec(INIT, actions), other, Exec(INIT, actions).requests[other]);
  }

  predicate InCall(req: Request, k: nat) {
    (req.StartRunning? || req.KillRunning? || req.DeleteRunning?) && req.k == k
  }

  /** All responses that carry an exit code for one instance carry the same code and timestamp. */
  lemma SingleVerdict(actions: seq<Action>, m: nat, n: nat)
    requires var reports := Exec(INIT, actions).reports;
             m < |reports| && n < |reports| && reports[m].k == reports[n].k
    ensures Exec(INIT, actions).reports[m].v == Exec(INIT, actions).reports[n].v
  {
    RunKeepsInv(actions);
  }
}
