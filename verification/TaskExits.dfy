/**
 The Task service together with the exit watchers of its instances: what the service reports about an
 instance is how its process really ended.
 */
module TaskExits {
  import opened Options
  import opened TaskState
  import opened TaskService
  import opened TaskSafety
  import opened TaskEvents
  import EW = ExitWatcher

  /** `watches` has the watcher of every instance whose `Instance::start` armed one; `failed` those that gave up. */
  datatype System = System(w: World, watches: map<nat, EW.Watch>, failed: set<nat>)

  datatype Move =
    | Serve(a: Action)                              // a request arrives or takes a step
    | Launch(k: nat, pid: nat)                      // `start` opened the pidfd and started the container
    | GiveUp(k: nat, time: nat)                     // `start` returns an early error and drops its guard
    | Happen(k: nat, h: EW.Happening, time: nat)    // the process, the reaper or the watcher moves

  const INIT_SYSTEM := System(INIT, map[], {})

  /** The watcher of a start that gave up: the guard has set the cell to 137. */
  function GaveUp(): EW.Watch {
    EW.Start(0).(place := EW.Ended, cell := Some(EW.KILLED), unlucky := true)
  }

  /** `Instance::start` of instance `k` is running and has not armed a watcher yet. */
  predicate Starting(s: System, k: nat) {
    k < |s.w.all| && s.w.all[k].state.Starting? && s.w.all[k].starts > 0 && k !in s.watches
  }

  /** The exit cell is set by a watcher only, and `start` returns what became of the watcher. */
  predicate Allowed(s: System, a: Action) {
    match a
    case ProcessExit(_, _) => false
    case Receive(_, _) => true
    case Step(r, ok, value) =>
      r in s.w.requests && s.w.requests[r].StartRunning? ==>
        var k := s.w.requests[r].k;
        k in s.watches && ok == (k !in s.failed) && (ok ==> s.watches[k].pid == value)
  }

  /** The cell of a watcher is the exit cell of its instance. */
  function Publish(w: World, k: nat, before: EW.Watch, after: EW.Watch, time: nat): World {
    if before.cell.None? && after.cell.Some? then Do(w, ProcessExit(k, Verdict(after.cell.value, time))) else w
  }

  function Move1(s: System, m: Move): System {
    match m
    case Serve(a) => if Allowed(s, a) then s.(w := Do(s.w, a)) else s
    case Launch(k, pid) => if Starting(s, k) then s.(watches := s.watches[k := EW.Start(pid)]) else s
    case GiveUp(k, time) =>
      if Starting(s, k) then
        System(Publish(s.w, k, EW.Start(0), GaveUp(), time), s.watches[k := GaveUp()], s.failed + {k})
      else s
    case Happen(k, h, time) =>
      if k in s.watches then
        var watch := EW.Do(s.watches[k], h);
        s.(w := Publish(s.w, k, s.watches[k], watch, time), watches := s.watches[k := watch])
      else s
  }

  function Moves(moves: seq<Move>): System {
    if moves == [] then INIT_SYSTEM else Move1(Moves(moves[..|moves| - 1]), moves[|moves| - 1])
  }

  /** One instance and its watcher: the same exit code, and the pid that `start` returned. */
  ghost predicate Joined(s: System, k: nat)
    requires k < |s.w.all|
  {
    var i := s.w.all[k];
    if k in s.watches then
      && EW.Inv(s.watches[k]) && i.starts > 0
      && s.watches[k].cell == (match i.exit { case Some(v) => Some(v.code) case None => None })
      && (i.pid.Some? ==> i.pid == Some(s.watches[k].pid) && k !in s.failed)
    else
      i.exit.None? && i.pid.None?
  }

  ghost predicate SystemInv(s: System) {
    && Inv(s.w) && EventsInv(s.w)
    && (forall k :: k in s.watches ==> k < |s.w.all|)
    && (forall k :: 0 <= k < |s.w.all| ==> Joined(s, k))
  }

  /** What a step of the service does to cells and pids. */
  lemma StepCells(w: World, r: nat, req: Request, ok: bool, value: nat, k: nat)
    requires RefersTo(req, |w.all|) && k < |StepOn(w, r, req, ok, value).all|
    ensures var i := StepOn(w, r, req, ok, value).all[k];
            if k < |w.all| then
              && i.exit == w.all[k].exit && i.starts >= w.all[k].starts
              && i.pid == if req == StartRunning(k) && ok && w.all[k].pid.None? then Some(value) else w.all[k].pid
            else i.exit.None? && i.pid.None?
  {
  }

  lemma StepGrows(w: World, r: nat, req: Request, ok: bool, value: nat)
    requires RefersTo(req, |w.all|)
    ensures |StepOn(w, r, req, ok, value).all| >= |w.all|
  {
  }

  lemma ServeJoined(s: System, a: Action, k: nat)
    requires SystemInv(s) && Allowed(s, a) && k < |Do(s.w, a).all|
    ensures Joined(s.(w := Do(s.w, a)), k)
  {
    if k < |s.w.all| { assert Joined(s, k); }
    if a.Step? && a.r in s.w.requests && RefersTo(s.w.requests[a.r], |s.w.all|) {
      StepCells(s.w, a.r, s.w.requests[a.r], a.ok, a.value, k);
    }
  }

  lemma ServeKeeps(s: System, a: Action)
    requires SystemInv(s) && Allowed(s, a)
    ensures SystemInv(s.(w := Do(s.w, a)))
  {
    DoKeepsInv(s.w, a);
    DoKeepsEvents(s.w, a);
    if a.Step? && a.r in s.w.requests && RefersTo(s.w.requests[a.r], |s.w.all|) {
      StepGrows(s.w, a.r, s.w.requests[a.r], a.ok, a.value);
    }
    forall k | 0 <= k < |Do(s.w, a).all| ensures Joined(s.(w := Do(s.w, a)), k) {
      ServeJoined(s, a, k);
    }
  }

  /** Replacing one watcher by one that went on from it, and publishing its cell. */
  lemma WatchKeeps(s: System, k: nat, before: EW.Watch, after: EW.Watch, time: nat, failed: set<nat>)
    requires SystemInv(s) && k < |s.w.all| && s.w.all[k].starts > 0 && EW.Inv(after)
    requires if k in s.watches then before == s.watches[k] else before.cell.None?
    requires before.cell.Some? ==> after.cell == before.cell
    requires s.w.all[k].pid.Some? ==> Some(after.pid) == s.w.all[k].pid && k !in failed
    requires s.failed <= failed <= s.failed + {k}
    ensures SystemInv(System(Publish(s.w, k, before, after, time), s.watches[k := after], failed))
  {
    var s' := System(Publish(s.w, k, before, after, time), s.watches[k := after], failed);
    if before.cell.None? && after.cell.Some? {
      DoKeepsInv(s.w, ProcessExit(k, Verdict(after.cell.value, time)));
      DoKeepsEvents(s.w, ProcessExit(k, Verdict(after.cell.value, time)));
    }
    assert Joined(s, k);
    forall j | 0 <= j < |s'.w.all| ensures Joined(s', j) {
      assert Joined(s, j);
    }
  }

  lemma WatchGoesOn(watch: EW.Watch, h: EW.Happening)
    requires EW.Inv(watch)
    ensures var next := EW.Do(watch, h);
            EW.Inv(next) && next.pid == watch.pid && (watch.cell.Some? ==> next.cell == watch.cell)
  {
    EW.DoKeepsInv(watch, h);
  }

  lemma MoveKeeps(s: System, m: Move)
    requires SystemInv(s)
    ensures SystemInv(Move1(s, m))
  {
    match m
    case Serve(a) => if Allowed(s, a) { ServeKeeps(s, a); }
    case Launch(k, pid) =>
      if Starting(s, k) {
        assert Joined(s, k);
        WatchKeeps(s, k, EW.Start(pid), EW.Start(pid), 0, s.failed);
      }
    case GiveUp(k, time) =>
      if Starting(s, k) {
        assert Joined(s, k);
        WatchKeeps(s, k, EW.Start(0), GaveUp(), time, s.failed + {k});
      }
    case Happen(k, h, time) =>
      if k in s.watches {
        assert Joined(s, k);
        WatchGoesOn(s.watches[k], h);
        WatchKeeps(s, k, s.watches[k], EW.Do(s.watches[k], h), time, s.failed);
      }
  }

  lemma {:induction false} MovesKeep(moves: seq<Move>)
    ensures SystemInv(Moves(moves))
  {
    if moves != [] {
      MovesKeep(moves[..|moves| - 1]);
      MoveKeeps(Moves(moves[..|moves| - 1]), moves[|moves| - 1]);
    }
  }

  /**
   A start that launches its process is watched from then on, and the service can go on with its pid; one
   that gives up has its exit cell set to 137 and can only go on as failed.
   */
  lemma StartsAreWatched(moves: seq<Move>, r: nat, k: nat, pid: nat, time: nat, ok: bool, value: nat)
    requires var s := Moves(moves); Starting(s, k) && r in s.w.requests && s.w.requests[r] == StartRunning(k)
    ensures var s := Move1(Moves(moves), Launch(k, pid));
            && k in s.watches && s.watches[k] == EW.Start(pid)
            && (Allowed(s, Step(r, ok, value)) <==> ok && value == pid)
    ensures var s := Move1(Moves(moves), GiveUp(k, time));
            && k in s.watches && k < |s.w.all| && s.w.all[k].exit == Some(Verdict(137, time))
            && (Allowed(s, Step(r, ok, value)) <==> !ok)
  {
    MovesKeep(moves);
    assert Joined(Moves(moves), k);
    FailedWereWatched(moves);
  }

  lemma {:induction false} FailedWereWatched(moves: seq<Move>)
    ensures forall k :: k in Moves(moves).failed ==> k in Moves(moves).watches
  {
    if moves != [] { FailedWereWatched(moves[..|moves| - 1]); }
  }

  /** How the process of instance `k` ended: its real exit code, or 137 if nobody could find out. */
  ghost predicate RealExit(s: System, k: nat, code: nat) {
    && k in s.watches
    && var watch := s.watches[k];
       if watch.unlucky then code == 137
       else !watch.process.Alive? && EW.Tells(code, watch.process.status)
  }

  /**
   In every interleaving of requests, processes, reaper and watchers: every wait, state or delete
   response that carries an exit code carries the one the process really ended with, whoever collected
   it, and 137 after a start that gave up or a wait that failed, timed out or was aborted.
   */
  lemma ReportsTellTheRealExit(moves: seq<Move>, n: nat)
    requires n < |Moves(moves).w.reports|
    ensures RealExit(Moves(moves), Moves(moves).w.reports[n].k, Moves(moves).w.reports[n].v.code)
  {
    MovesKeep(moves);
    var s := Moves(moves);
    assert Joined(s, s.w.reports[n].k);
    WatcherTells(s, s.w.reports[n].k, s.w.reports[n].v);
  }

  lemma WatcherTells(s: System, k: nat, v: Verdict)
    requires k < |s.w.all| && Joined(s, k) && s.w.all[k].exit == Some(v)
    ensures RealExit(s, k, v.code)
  {
    if !s.watches[k].unlucky { EW.CodeTells(s.watches[k].process.status); }
  }

  /** And so do the events: an exit event names the process that was watched and tells how it really ended. */
  lemma EventsTellTheRealExit(moves: seq<Move>, n: nat)
    requires n < |Moves(moves).w.events|
    ensures var s, event := Moves(moves), Moves(moves).w.events[n];
            match event
            case TaskExit(k, pid, v) => RealExit(s, k, v.code) && s.watches[k].pid == pid && k !in s.failed
            case TaskDelete(k, Some(v)) => RealExit(s, k, v.code)
            case _ => true
  {
    MovesKeep(moves);
    var s := Moves(moves);
    assert EventOk(s.w, n);
    match s.w.events[n]
    case TaskExit(k, _, v) =>
      assert Joined(s, k);
      WatcherTells(s, k, v);
    case TaskDelete(k, Some(v)) =>
      assert Joined(s, k);
      WatcherTells(s, k, v);
    case _ =>
  }
}
