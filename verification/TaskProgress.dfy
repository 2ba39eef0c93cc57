/**
 What the requests of the Task service get done: from every state that any interleaving can reach, when
 a call is forwarded to the instance, what it leaves behind and what is answered and announced.
 */
module TaskProgress {
  import opened Options
  import opened TaskState
  import opened TaskService
  import opened TaskSafety
  import opened TaskEvents

  /** `n` steps of request `r`, whose calls into the instance answer `ok` and `value`. */
  function Steps(w: World, r: nat, ok: bool, value: nat, n: nat): World {
    if n == 0 then w else Do(Steps(w, r, ok, value, n - 1), Step(r, ok, value))
  }

  lemma OneMore(w: World, r: nat, ok: bool, value: nat, n: nat)
    ensures Steps(w, r, ok, value, n + 1) == Do(Steps(w, r, ok, value, n), Step(r, ok, value))
  {
  }

  /** A request is at `req` in a reachable world, on an instance nobody has locked. */
  ghost predicate Ready(actions: seq<Action>, r: nat, req: Request, k: nat) {
    var w := Exec(INIT, actions);
    r in w.requests && w.requests[r] == req && k < |w.all| && w.all[k].lock.None?
  }

  /** The instances a step leaves: only `k` has changed. */
  predicate OnlyChanges(w: World, w': World, k: nat, i: Instance)
    requires k < |w.all|
  {
    w'.all == w.all[k := i] && w'.live == w.live && w'.exit == w.exit
  }

  // ----- which calls reach the instance -----

  /** Start is forwarded exactly to an instance that was never started, exited or deleted; otherwise it is refused. */
  lemma StartForwardedExactly(actions: seq<Action>, r: nat, k: nat, ok: bool, value: nat)
    requires Ready(actions, r, StartLock(k), k)
    ensures var w, w' := Exec(INIT, actions), Do(Exec(INIT, actions), Step(r, ok, value));
            && r in w'.requests
            && (w'.requests[r] == StartRunning(k) <==> w.all[k].starts == 0 && !w.all[k].down)
            && (w'.requests[r] == StartRunning(k) || (w'.requests[r] == Done && w'.all == w.all))
  {
    RunKeepsInv(actions);
    assert InstanceInv(Exec(INIT, actions).all[k]);
  }

  /** Kill is forwarded exactly to an instance whose start succeeded and that was never seen down. */
  lemma KillForwardedExactly(actions: seq<Action>, r: nat, k: nat, ok: bool, value: nat)
    requires Ready(actions, r, KillLock(k), k)
    ensures var w, w' := Exec(INIT, actions), Do(Exec(INIT, actions), Step(r, ok, value));
            && r in w'.requests
            && (w'.requests[r] == KillRunning(k) <==> w.all[k].pid.Some? && !w.all[k].down)
            && (w'.requests[r] == KillRunning(k) || (w'.requests[r] == Done && w'.all == w.all))
  {
    RunKeepsInv(actions);
    assert InstanceInv(Exec(INIT, actions).all[k]);
  }

  /** Delete is forwarded exactly to an instance that was never started nor deleted, or was marked exited. */
  lemma DeleteForwardedExactly(actions: seq<Action>, r: nat, k: nat, id: string, ok: bool, value: nat)
    requires Ready(actions, r, DeleteLock(k, id), k)
    ensures var w, w' := Exec(INIT, actions), Do(Exec(INIT, actions), Step(r, ok, value));
            && r in w'.requests
            && (w'.requests[r] == DeleteRunning(k, id) <==>
                  (w.all[k].starts == 0 && !w.all[k].down) || w.all[k].state.Exited?)
            && (w'.requests[r] == DeleteRunning(k, id) || (w'.requests[r] == Done && w'.all == w.all))
  {
    RunKeepsInv(actions);
    assert InstanceInv(Exec(INIT, actions).all[k]);
  }

  // ----- what the calls leave behind -----

  /** A start that succeeds gives the instance its pid and is announced with it; one that fails leaves it exited. */
  lemma StartDoes(actions: seq<Action>, r: nat, k: nat, value: nat)
    requires var w := Exec(INIT, actions); r in w.requests && w.requests[r] == StartRunning(k) && k < |w.all|
    ensures var w, w' := Exec(INIT, actions), Do(Exec(INIT, actions), Step(r, true, value));
            && OnlyChanges(w, w', k, w.all[k].(state := Started, pid := Some(value), lock := None))
            && Do(w', Step(r, true, value)).events == w.events + [TaskStart(k, value)]
    ensures var w, w' := Exec(INIT, actions), Do(Exec(INIT, actions), Step(r, false, value));
            && OnlyChanges(w, w', k, w.all[k].(state := Exited, down := true, lock := None))
            && w'.requests[r] == Done && w'.events == w.events
  {
    RunKeepsInv(actions);
    assert RequestInv(Exec(INIT, actions), r, StartRunning(k)) && InstanceInv(Exec(INIT, actions).all[k]);
  }

  /** A kill lets go of the lock and leaves the instance as it was. */
  lemma KillDoes(actions: seq<Action>, r: nat, k: nat, ok: bool, value: nat)
    requires var w := Exec(INIT, actions); r in w.requests && w.requests[r] == KillRunning(k) && k < |w.all|
    ensures var w, w' := Exec(INIT, actions), Do(Exec(INIT, actions), Step(r, ok, value));
            OnlyChanges(w, w', k, w.all[k].(lock := None)) && w'.requests[r] == Done
  {
  }

  /** A delete that fails leaves the instance exited, to be deleted again. */
  lemma FailedDeleteDoes(actions: seq<Action>, r: nat, k: nat, id: string, value: nat)
    requires var w := Exec(INIT, actions); r in w.requests && w.requests[r] == DeleteRunning(k, id) && k < |w.all|
    ensures var w, w' := Exec(INIT, actions), Do(Exec(INIT, actions), Step(r, false, value));
            && OnlyChanges(w, w', k, w.all[k].(state := Exited, down := true, lock := None))
            && w'.requests[r] == Done && w'.events == w.events
  {
    RunKeepsInv(actions);
    assert RequestInv(Exec(INIT, actions), r, DeleteRunning(k, id)) && InstanceInv(Exec(INIT, actions).all[k]);
  }

  /** A delete that succeeds removes the id, and announces and answers the exit if there is one. */
  lemma DeleteDoes(actions: seq<Action>, r: nat, k: nat, id: string, value: nat)
    requires var w := Exec(INIT, actions); r in w.requests && w.requests[r] == DeleteRunning(k, id) && k < |w.all|
    ensures var w, w' := Exec(INIT, actions), Steps(Exec(INIT, actions), r, true, value, 3);
            && w'.live == w.live - {id} && r in w'.requests && w'.requests[r] == Done
            && k < |w'.all| && w'.all[k].deletes == w.all[k].deletes + 1 && w'.all[k].lock.None?
            && w'.events == w.events + [TaskDelete(k, w.all[k].exit)]
            && w'.reports == w.reports + if w.all[k].exit.Some? then [Report(k, w.all[k].exit.value)] else []
  {
    var w := Exec(INIT, actions);
    OneMore(w, r, true, value, 0);
    OneMore(w, r, true, value, 1);
    OneMore(w, r, true, value, 2);
    DeleteSucceeds(w, r, k, id, value);
    DeletePeeks(Steps(w, r, true, value, 1), r, k, id, value);
    DeleteRemoves(Steps(w, r, true, value, 2), r, k, id, w.all[k].exit, value);
  }

  /** Nothing is announced or answered yet. */
  predicate Quiet(w: World, w': World) {
    w'.events == w.events && w'.reports == w.reports && w'.live == w.live
  }

  lemma DeleteSucceeds(w: World, r: nat, k: nat, id: string, value: nat)
    requires r in w.requests && w.requests[r] == DeleteRunning(k, id) && k < |w.all|
    ensures var w' := Do(w, Step(r, true, value));
            && Quiet(w, w') && r in w'.requests && w'.requests[r] == DeletePeek(k, id)
            && w'.all == w.all[k := w.all[k].(lock := None, deletes := w.all[k].deletes + 1)]
  {
  }

  lemma DeletePeeks(w: World, r: nat, k: nat, id: string, value: nat)
    requires r in w.requests && w.requests[r] == DeletePeek(k, id) && k < |w.all| && w.all[k].lock.None?
    ensures var w' := Do(w, Step(r, true, value));
            && Quiet(w, w') && r in w'.requests && w'.requests[r] == DeleteRemove(k, id, w.all[k].exit)
            && k < |w'.all| && w'.all[k].deletes == w.all[k].deletes && w'.all[k].lock.None?
  {
  }

  lemma DeleteRemoves(w: World, r: nat, k: nat, id: string, seen: Option<Verdict>, value: nat)
    requires r in w.requests && w.requests[r] == DeleteRemove(k, id, seen) && k < |w.all|
    ensures var w' := Do(w, Step(r, true, value));
            && r in w'.requests && w'.requests[r] == Done && w'.live == w.live - {id} && w'.all == w.all
            && w'.events == w.events + [TaskDelete(k, seen)]
            && w'.reports == w.reports + if seen.Some? then [Report(k, seen.value)] else []
  {
  }

  // ----- requests from their arrival -----

  /** A new request arrives, and the exit cell of a started instance is set once. */
  lemma WorldMoves(w: World, r: nat, call: Call, k: nat, v: Verdict)
    ensures r !in w.requests ==> Do(w, Receive(r, call)) == w.(requests := w.requests[r := Begin(call)])
    ensures k < |w.all| && w.all[k].starts > 0 && w.all[k].exit.None? ==>
              Do(w, ProcessExit(k, v)) == w.(all := w.all[k := w.all[k].(exit := Some(v))])
  {
  }

  /** A create of a free id whose preparation succeeds inserts and announces a new instance; one of a taken id does nothing. */
  lemma CreateDoes(w: World, r: nat, id: string, value: nat)
    requires r in w.requests && w.requests[r] == Begin(CreateCall(id))
    ensures var w' := Steps(w, r, true, value, 2);
            && r in w'.requests && w'.requests[r] == Done
            && if id in w.live then
                 w'.all == w.all && w'.live == w.live && w'.events == w.events
               else
                 && |w'.all| == |w.all| + 1 && w'.all[..|w.all|] == w.all
                 && w'.all[|w.all|].id == id && w'.all[|w.all|].state == Created && w'.all[|w.all|].starts == 0
                 && w'.live == w.live[id := |w.all|] && w'.events == w.events + [TaskCreate(|w.all|)]
  {
    OneMore(w, r, true, value, 0);
    OneMore(w, r, true, value, 1);
  }

  /** Every other request finds the live instance of its id, or fails if there is none. */
  lemma RequestsFindTheirInstance(w: World, r: nat, call: Call, ok: bool, value: nat)
    requires r in w.requests && w.requests[r] == Begin(call) && !call.CreateCall? && !call.ShutdownCall?
    ensures var w' := Do(w, Step(r, ok, value));
            && w'.all == w.all && w'.live == w.live && r in w'.requests
            && w'.requests[r] ==
                 if call.id !in w.live then Done
                 else
                   var k := w.live[call.id];
                   match call
                   case StartCall(_) => StartLock(k)
                   case KillCall(_) => KillLock(k)
                   case DeleteCall(id) => DeleteLock(k, id)
                   case WaitCall(_) => WaitExit(k)
                   case StateCall(_) => StatePeek(k)
                   case _ => Done
  {
  }

  /** A shutdown sets the shim's exit when no instance is live, and does nothing otherwise. */
  lemma ShutdownDoes(w: World, r: nat, ok: bool, value: nat)
    requires r in w.requests && w.requests[r] == Begin(ShutdownCall)
    ensures var w' := Steps(w, r, ok, value, 2);
            && (w.live == map[] ==> w'.exit.Some?) && (w.live != map[] ==> w'.exit == w.exit)
            && w'.all == w.all && w'.live == w.live && r in w'.requests && w'.requests[r] == Done
  {
    OneMore(w, r, ok, value, 0);
    OneMore(w, r, ok, value, 1);
  }

  // ----- exits are reported and announced -----

  /** A wait on an exited instance nobody has locked answers with its exit within two steps and marks it exited. */
  lemma WaitAnswers(actions: seq<Action>, r: nat, k: nat, ok: bool, value: nat)
    requires Ready(actions, r, WaitExit(k), k) && Exec(INIT, actions).all[k].exit.Some?
    ensures var w, w' := Exec(INIT, actions), Steps(Exec(INIT, actions), r, ok, value, 2);
            && w'.reports == w.reports + [Report(k, w.all[k].exit.value)]
            && OnlyChanges(w, w', k, w.all[k].(state := Exited, down := true))
            && r in w'.requests && w'.requests[r] == Done
  {
    OneMore(Exec(INIT, actions), r, ok, value, 0);
    OneMore(Exec(INIT, actions), r, ok, value, 1);
  }

  /** So does a state request, in one step and if its peek is lucky; otherwise it reports no exit. */
  lemma StateAnswers(actions: seq<Action>, r: nat, k: nat, ok: bool, value: nat)
    requires Ready(actions, r, StatePeek(k), k)
    ensures var w, w' := Exec(INIT, actions), Do(Exec(INIT, actions), Step(r, ok, value));
            && w'.requests[r] == Done
            && if ok && w.all[k].exit.Some? then
                 && w'.reports == w.reports + [Report(k, w.all[k].exit.value)]
                 && OnlyChanges(w, w', k, w.all[k].(state := Exited, down := true))
               else w'.reports == w.reports && w'.all == w.all
  {
  }

  /** The exit watcher of a started instance announces its exit within three steps. */
  lemma ExitIsAnnounced(actions: seq<Action>, r: nat, k: nat, pid: nat, ok: bool, value: nat)
    requires Ready(actions, r, WatchWait(k, pid), k) && Exec(INIT, actions).all[k].exit.Some?
    ensures var w, w' := Exec(INIT, actions), Steps(Exec(INIT, actions), r, ok, value, 3);
            && w'.events == w.events + [TaskExit(k, pid, w.all[k].exit.value)]
            && OnlyChanges(w, w', k, w.all[k].(state := Exited, down := true))
            && r in w'.requests && w'.requests[r] == Done
  {
    var w := Exec(INIT, actions);
    OneMore(w, r, ok, value, 0);
    OneMore(w, r, ok, value, 1);
    OneMore(w, r, ok, value, 2);
    WatchSees(w, r, k, pid, ok, value);
    WatchMarks(Steps(w, r, ok, value, 1), r, k, pid, w.all[k].exit.value, ok, value);
    WatchTells(Steps(w, r, ok, value, 2), r, k, pid, w.all[k].exit.value, ok, value);
  }

  lemma WatchSees(w: World, r: nat, k: nat, pid: nat, ok: bool, value: nat)
    requires r in w.requests && w.requests[r] == WatchWait(k, pid) && k < |w.all| && w.all[k].exit.Some?
    ensures Do(w, Step(r, ok, value)) == SetRequest(w, r, WatchLock(k, pid, w.all[k].exit.value))
  {
  }

  lemma WatchMarks(w: World, r: nat, k: nat, pid: nat, v: Verdict, ok: bool, value: nat)
    requires r in w.requests && w.requests[r] == WatchLock(k, pid, v) && k < |w.all| && w.all[k].lock.None?
    ensures var w' := Do(w, Step(r, ok, value));
            && OnlyChanges(w, w', k, w.all[k].(state := Exited, down := true)) && w'.events == w.events
            && r in w'.requests && w'.requests[r] == WatchEmit(k, pid, v)
  {
  }

  lemma WatchTells(w: World, r: nat, k: nat, pid: nat, v: Verdict, ok: bool, value: nat)
    requires r in w.requests && w.requests[r] == WatchEmit(k, pid, v) && k < |w.all|
    ensures var w' := Do(w, Step(r, ok, value));
            && w'.all == w.all && w'.live == w.live && w'.exit == w.exit
            && w'.events == w.events + [TaskExit(k, pid, v)] && r in w'.requests && w'.requests[r] == Done
  {
  }

  /** Request `req` watches the process `pid` of instance `k` and has yet to announce its exit. */
  predicate Watches(req: Request, k: nat, pid: nat) {
    (req.WatchWait? || req.WatchLock? || req.WatchEmit?) && req.k == k && req.pid == pid
  }

  ghost predicate Pending(w: World, k: nat, pid: nat) {
    exists r :: r in w.requests && Watches(w.requests[r], k, pid)
  }

  ghost predicate Announced(w: World, k: nat, pid: nat) {
    exists v :: TaskExit(k, pid, v) in w.events
  }

  ghost predicate NoneForgotten(w: World) {
    forall k, pid :: TaskStart(k, pid) in w.events ==> Announced(w, k, pid) || Pending(w, k, pid)
  }

  /** A watching request goes on watching until it announces the exit. */
  lemma WatcherGoesOn(w: World, r: nat, req: Request, ok: bool, value: nat, k: nat, pid: nat)
    requires RefersTo(req, |w.all|) && r in w.requests && w.requests[r] == req
    requires Watches(req, k, pid) || req == StartNotify(k, pid)
    ensures var w' := StepOn(w, r, req, ok, value);
            (r in w'.requests && Watches(w'.requests[r], k, pid)) || Announced(w', k, pid)
  {
    if req.WatchEmit? { assert TaskExit(k, pid, req.v) in StepOn(w, r, req, ok, value).events; }
  }

  lemma StepForgetsNone(w: World, r: nat, ok: bool, value: nat)
    requires Inv(w) && NoneForgotten(w) && r in w.requests && RefersTo(w.requests[r], |w.all|)
    ensures NoneForgotten(StepOn(w, r, w.requests[r], ok, value))
  {
    var req := w.requests[r];
    var w' := StepOn(w, r, req, ok, value);
    StepPublishes(w, r, req, ok, value);
    StepTouches(w, r, ok, value);
    forall k, pid | TaskStart(k, pid) in w'.events ensures Announced(w', k, pid) || Pending(w', k, pid) {
      if TaskStart(k, pid) in w.events {
        StillPending(w, w', r, ok, value, k, pid);
      } else {
        assert req == StartNotify(k, pid);
        WatcherGoesOn(w, r, req, ok, value, k, pid);
      }
    }
  }

  lemma StillPending(w: World, w': World, r: nat, ok: bool, value: nat, k: nat, pid: nat)
    requires r in w.requests && RefersTo(w.requests[r], |w.all|) && w' == StepOn(w, r, w.requests[r], ok, value)
    requires forall x :: x in w.requests && x != r ==> x in w'.requests && w'.requests[x] == w.requests[x]
    requires w.events <= w'.events && (Announced(w, k, pid) || Pending(w, k, pid))
    ensures Announced(w', k, pid) || Pending(w', k, pid)
  {
    if Announced(w, k, pid) {
      var v :| TaskExit(k, pid, v) in w.events;
      assert TaskExit(k, pid, v) in w'.events;
    } else {
      var x :| x in w.requests && Watches(w.requests[x], k, pid);
      if x == r {
        WatcherGoesOn(w, r, w.requests[r], ok, value, k, pid);
      } else {
        assert Watches(w'.requests[x], k, pid);
      }
    }
  }

  lemma ActionForgetsNone(w: World, a: Action)
    requires Inv(w) && NoneForgotten(w)
    ensures NoneForgotten(Do(w, a))
  {
    if a.Step? {
      if a.r in w.requests && RefersTo(w.requests[a.r], |w.all|) { StepForgetsNone(w, a.r, a.ok, a.value); }
    } else {
      var w' := Do(w, a);
      forall k, pid | TaskStart(k, pid) in w'.events ensures Announced(w', k, pid) || Pending(w', k, pid) {
        assert w'.events == w.events;
        if !Announced(w, k, pid) {
          var x :| x in w.requests && Watches(w.requests[x], k, pid);
          assert x in w'.requests && w'.requests[x] == w.requests[x];
        }
      }
    }
  }

  /**
   In every run no exit is forgotten: for every start that was announced the exit was announced too, or
   a watcher is still there to announce it.
   */
  lemma {:induction false} EveryStartIsWatched(actions: seq<Action>)
    ensures NoneForgotten(Exec(INIT, actions))
  {
    if actions != [] {
      var n := |actions| - 1;
      EveryStartIsWatched(actions[..n]);
      RunKeepsInv(actions[..n]);
      ActionForgetsNone(Exec(INIT, actions[..n]), actions[n]);
    }
  }
}
