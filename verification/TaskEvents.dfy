/** The events a shim publishes about its tasks. */
module TaskEvents {
  import opened Options
  import opened TaskState
  import opened TaskService
  import opened TaskSafety

  /** What an event says about its instance. */
  ghost predicate EventOk(w: World, n: nat)
    requires n < |w.events|
  {
    match w.events[n]
    case TaskCreate(_) => true
    case TaskStart(k, pid) => k < |w.all| && w.all[k].pid == Some(pid) && w.all[k].starter.Some?
    case TaskExit(k, pid, v) =>
      && k < |w.all| && w.all[k].pid == Some(pid) && w.all[k].starter.Some? && w.all[k].exit == Some(v)
      && TaskStart(k, pid) in w.events[..n]
    case TaskDelete(k, seen) => k < |w.all| && (seen.Some? ==> w.all[k].exit == seen)
  }

  ghost predicate NoStart(events: seq<Event>, k: nat) {
    forall n :: 0 <= n < |events| ==> !(events[n].TaskStart? && events[n].k == k)
  }

  ghost predicate NoExit(events: seq<Event>, k: nat) {
    forall n :: 0 <= n < |events| ==> !(events[n].TaskExit? && events[n].k == k)
  }

  /** What a request still owes: it announces a start once, and the exit after it once. */
  ghost predicate Owes(w: World, req: Request) {
    && (req.StartRunning? || req.StartNotify? ==> NoStart(w.events, req.k) && NoExit(w.events, req.k))
    && (req.WatchWait? || req.WatchLock? || req.WatchEmit? ==>
          TaskStart(req.k, req.pid) in w.events && NoExit(w.events, req.k))
  }

  ghost predicate Once(events: seq<Event>) {
    forall m, n :: 0 <= m < n < |events| && events[m].k == events[n].k ==>
      && !(events[m].TaskStart? && events[n].TaskStart?)
      && !(events[m].TaskExit? && events[n].TaskExit?)
  }

  ghost predicate EventsInv(w: World) {
    && (forall n :: 0 <= n < |w.events| ==> EventOk(w, n))
    && (forall r :: r in w.requests ==> Owes(w, w.requests[r]))
    && Once(w.events)
  }

  /** A step publishes at most one event, and only the request that owes it. */
  lemma StepPublishes(w: World, r: nat, req: Request, ok: bool, value: nat)
    requires RefersTo(req, |w.all|)
    ensures var events := StepOn(w, r, req, ok, value).events;
            events == w.events + match req
                                 case CreateInsert(_) => if ok then [TaskCreate(|w.all|)] else []
                                 case StartNotify(k, pid) => [TaskStart(k, pid)]
                                 case WatchEmit(k, pid, v) => [TaskExit(k, pid, v)]
                                 case DeleteRemove(k, _, seen) => [TaskDelete(k, seen)]
                                 case _ => []
  {
  }

  lemma OldEventsStayOk(w: World, r: nat, w': World, n: nat)
    requires AllEvolve(r, w, w') && w.events <= w'.events && n < |w.events| && EventOk(w, n)
    ensures EventOk(w', n)
  {
    assert w'.events[n] == w.events[n] && w'.events[..n] == w.events[..n];
    if !w.events[n].TaskCreate? {
      assert Evolves(r, w.all[w.events[n].k], w'.all[w.events[n].k]);
    }
  }

  lemma OwnDebt(w: World, r: nat, req: Request, ok: bool, value: nat)
    requires RequestInv(w, r, req) && Owes(w, req)
    requires forall n :: 0 <= n < |w.events| ==> EventOk(w, n)
    requires req.StartLock? ==> InstanceInv(w.all[req.k])
    ensures var w' := StepOn(w, r, req, ok, value);
            w' == w || (r in w'.requests && Owes(w', w'.requests[r]))
  {
    StepPublishes(w, r, req, ok, value);
    if req.StartLock? && w.all[req.k].state.Created? {
      forall n | 0 <= n < |w.events| ensures !((w.events[n].TaskStart? || w.events[n].TaskExit?) && w.events[n].k == req.k) {
        assert EventOk(w, n);
      }
    }
  }

  lemma OthersDebt(w: World, r: nat, req: Request, ok: bool, value: nat, other: nat, owed: Request)
    requires RequestInv(w, r, req) && RequestInv(w, other, owed) && Owes(w, owed) && other != r
    ensures Owes(StepOn(w, r, req, ok, value), owed)
  {
    StepPublishes(w, r, req, ok, value);
  }

  lemma StillOnce(w: World, r: nat, req: Request, ok: bool, value: nat)
    requires RequestInv(w, r, req) && Owes(w, req) && Once(w.events)
    ensures Once(StepOn(w, r, req, ok, value).events)
  {
    StepPublishes(w, r, req, ok, value);
  }

  lemma NewEventOk(w: World, r: nat, req: Request, ok: bool, value: nat)
    requires RequestInv(w, r, req) && Owes(w, req)
    requires AllEvolve(r, w, StepOn(w, r, req, ok, value))
    ensures var w' := StepOn(w, r, req, ok, value);
            forall n :: |w.events| <= n < |w'.events| ==> EventOk(w', n)
  {
    StepPublishes(w, r, req, ok, value);
    var w' := StepOn(w, r, req, ok, value);
    if w'.events != w.events {
      assert w'.events[..|w.events|] == w.events;
    }
  }

  lemma StepKeepsEvents(w: World, r: nat, ok: bool, value: nat)
    requires Inv(w) && EventsInv(w) && r in w.requests
    ensures RefersTo(w.requests[r], |w.all|)
    ensures EventsInv(StepOn(w, r, w.requests[r], ok, value))
  {
    var req := w.requests[r];
    assert RequestInv(w, r, req) && Owes(w, req);
    var w' := StepOn(w, r, req, ok, value);
    StepEvolves(w, r, ok, value);
    StepTouches(w, r, ok, value);
    StepPublishes(w, r, req, ok, value);
    NewEventOk(w, r, req, ok, value);
    StillOnce(w, r, req, ok, value);
    forall n | 0 <= n < |w'.events| ensures EventOk(w', n) {
      if n < |w.events| { OldEventsStayOk(w, r, w', n); }
    }
    forall x | x in w'.requests ensures Owes(w', w'.requests[x]) {
      if x == r {
        OwnDebt(w, r, req, ok, value);
      } else {
        assert RequestInv(w, x, w.requests[x]);
        OthersDebt(w, r, req, ok, value, x, w.requests[x]);
      }
    }
  }

  lemma DoKeepsEvents(w: World, a: Action)
    requires Inv(w) && EventsInv(w)
    ensures EventsInv(Do(w, a))
  {
    var w' := Do(w, a);
    if a.Step? {
      if a.r in w.requests { StepKeepsEvents(w, a.r, a.ok, a.value); }
    } else {
      forall n | 0 <= n < |w'.events| ensures EventOk(w', n) {
        assert EventOk(w, n);
      }
      forall x | x in w'.requests ensures Owes(w', w'.requests[x]) {
        if x in w.requests { assert Owes(w, w.requests[x]); }
      }
    }
  }

  lemma {:induction false} RunKeepsEvents(actions: seq<Action>)
    ensures Inv(Exec(INIT, actions)) && EventsInv(Exec(INIT, actions))
  {
    RunKeepsInv(actions);
    if actions != [] {
      var n := |actions| - 1;
      RunKeepsEvents(actions[..n]);
      DoKeepsEvents(Exec(INIT, actions[..n]), actions[n]);
    }
  }

  /**
   In every interleaving each instance is announced started at most once and exited at most once; the
   exit comes after the start, and both carry the pid that `start` returned.
   */
  lemma EventTrace(actions: seq<Action>, m: nat, n: nat)
    requires m < |Exec(INIT, actions).events| && n < |Exec(INIT, actions).events|
    requires Exec(INIT, actions).events[n].TaskExit?
    ensures var events := Exec(INIT, actions).events;
            var k := events[n].k;
            && (events[m].TaskExit? && events[m].k == k ==> m == n)
            && (events[m].TaskStart? && events[m].k == k ==> m < n && events[m].pid == events[n].pid)
            && (exists s :: 0 <= s < n && events[s] == TaskStart(k, events[n].pid))
            && k < |Exec(INIT, actions).all| && Exec(INIT, actions).all[k].pid == Some(events[n].pid)
  {
    RunKeepsEvents(actions);
    var w := Exec(INIT, actions);
    assert EventOk(w, n) && EventOk(w, m);
    var s :| 0 <= s < |w.events[..n]| && w.events[..n][s] == TaskStart(w.events[n].k, w.events[n].pid);
    assert w.events[s] == TaskStart(w.events[n].k, w.events[n].pid);
  }

  lemma StartedAtMostOnce(actions: seq<Action>, m: nat, n: nat)
    requires m < |Exec(INIT, actions).events| && n < |Exec(INIT, actions).events|
    requires var events := Exec(INIT, actions).events;
             events[m].TaskStart? && events[n].TaskStart? && events[m].k == events[n].k
    ensures m == n
  {
    RunKeepsEvents(actions);
  }

  /** Events and responses agree: whoever reports an exit of an instance reports the same one. */
  lemma EventsAgreeWithReports(actions: seq<Action>, n: nat, m: nat)
    requires n < |Exec(INIT, actions).events| && m < |Exec(INIT, actions).reports|
    requires Exec(INIT, actions).events[n].k == Exec(INIT, actions).reports[m].k
    ensures var e := Exec(INIT, actions).events[n];
            var v := Exec(INIT, actions).reports[m].v;
            && (e.TaskExit? ==> e.v == v)
            && (e.TaskDelete? && e.seen.Some? ==> e.seen.value == v)
  {
    RunKeepsEvents(actions);
    assert EventOk(Exec(INIT, actions), n);
  }
}
