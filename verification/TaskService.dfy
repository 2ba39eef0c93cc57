/**
 The Task service of a shim: `Local` and its `InstanceData`, as steps between the points where a
 request can wait.  Each task has a write lock that is held across the calls into the instance.
 */
module TaskService {
  import opened Options
  import opened TaskState

  datatype Verdict = Verdict(code: nat, time: nat)

  /**
   One instance.  `starter` is the request that called `Instance::start`, `down` whether it has
   ever been Exited or Deleting, `deletes` how often `Instance::delete` succeeded.
   */
  datatype Instance = Instance(
    id: string, state: State, lock: Option<nat>, pid: Option<nat>, exit: Option<Verdict>,
    starter: Option<nat>, starts: nat, down: bool, deletes: nat)

  datatype Call =
    | CreateCall(id: string) | StartCall(id: string) | KillCall(id: string)
    | DeleteCall(id: string) | WaitCall(id: string) | StateCall(id: string) | ShutdownCall

  /** A request, by the step it takes next.  `k` is the instance it holds a reference to. */
  datatype Request =
    | Begin(call: Call)
    | CreateInsert(id: string)
    | StartLock(k: nat) | StartRunning(k: nat) | StartNotify(k: nat, pid: nat)
    | WatchWait(k: nat, pid: nat) | WatchLock(k: nat, pid: nat, v: Verdict) | WatchEmit(k: nat, pid: nat, v: Verdict)
    | KillLock(k: nat) | KillRunning(k: nat)
    | DeleteLock(k: nat, id: string) | DeleteRunning(k: nat, id: string)
    | DeletePeek(k: nat, id: string) | DeleteRemove(k: nat, id: string, seen: Option<Verdict>)
    | WaitExit(k: nat) | WaitLock(k: nat, v: Verdict)
    | StatePeek(k: nat)
    | ShutdownSet(inserted: nat)
    | Done

  datatype Event =
    | TaskCreate(k: nat)
    | TaskStart(k: nat, pid: nat)
    | TaskExit(k: nat, pid: nat, v: Verdict)
    | TaskDelete(k: nat, seen: Option<Verdict>)

  /** A response that carries an exit code and timestamp. */
  datatype Report = Report(k: nat, v: Verdict)

  /** `exit` is the shim's exit cell, with the number of instances inserted when it was found empty. */
  datatype World = World(
    all: seq<Instance>, live: map<string, nat>, requests: map<nat, Request>,
    events: seq<Event>, reports: seq<Report>, exit: Option<nat>)

  const INIT := World([], map[], map[], [], [], None)

  datatype Action =
    | Receive(r: nat, call: Call)
    | Step(r: nat, ok: bool, value: nat)   // `ok`, `value`: what a call into the instance answers
    | ProcessExit(k: nat, v: Verdict)

  function SetRequest(w: World, r: nat, req: Request): World {
    w.(requests := w.requests[r := req])
  }

  function SetInstance(w: World, k: nat, i: Instance): World
    requires k < |w.all|
  {
    w.(all := w.all[k := i])
  }

  /** A state change: remembers whether the instance was ever down. */
  function Move(i: Instance, s: State): Instance {
    i.(state := s, down := i.down || s.Exited? || s.Deleting?)
  }

  /** `let _ = s.started()` and the like: a refused transition changes nothing. */
  function Try(i: Instance, t: Transition): Instance {
    match Next(i.state, t)
    case Some(s) => Move(i, s)
    case None => i
  }

  /** What a request does with the instance `get_instance` found. */
  function Found(call: Call, k: nat): Request {
    match call
    case StartCall(_) => StartLock(k)
    case KillCall(_) => KillLock(k)
    case DeleteCall(id) => DeleteLock(k, id)
    case WaitCall(_) => WaitExit(k)
    case _ => StatePeek(k)
  }

  function BeginStep(w: World, r: nat, call: Call): World {
    match call
    case CreateCall(id) => SetRequest(w, r, if id in w.live then Done else CreateInsert(id))
    case ShutdownCall => SetRequest(w, r, if w.live == map[] then ShutdownSet(|w.all|) else Done)
    case _ => SetRequest(w, r, if call.id in w.live then Found(call, w.live[call.id]) else Done)
  }

  /** Take the write lock and ask for a transition; on success the lock stays held. */
  function LockStep(w: World, r: nat, k: nat, t: Transition, next: Request): World
    requires k < |w.all|
  {
    var i := w.all[k];
    if i.lock.Some? then w
    else
      match Next(i.state, t)
      case None => SetRequest(w, r, Done)
      case Some(s) => SetRequest(SetInstance(w, k, Move(i, s).(lock := Some(r))), r, next)
  }

  /** `InstanceData::wait` after the exit cell was read: lock, mark the instance exited, unlock. */
  function MarkExited(w: World, r: nat, k: nat, next: Request): World
    requires k < |w.all|
  {
    if w.all[k].lock.Some? then w
    else SetRequest(SetInstance(w, k, Move(w.all[k], Exited)), r, next)
  }

  /**
   `wait().now_or_never()`: it can only succeed when the exit cell is set and the lock is free, and
   `lucky` says whether it does; a lock promised to a queued request makes it miss.
   */
  function Peek(w: World, k: nat, lucky: bool): (World, Option<Verdict>)
    requires k < |w.all|
  {
    var i := w.all[k];
    if lucky && i.exit.Some? && i.lock.None? then (SetInstance(w, k, Move(i, Exited)), i.exit) else (w, None)
  }

  function Reported(k: nat, seen: Option<Verdict>): seq<Report> {
    match seen
    case Some(v) => [Report(k, v)]
    case None => []
  }

  function StepOn(w: World, r: nat, req: Request, ok: bool, value: nat): World
    requires RefersTo(req, |w.all|)
  {
    match req
    case Begin(call) => BeginStep(w, r, call)
    case CreateInsert(id) =>
      if !ok then SetRequest(w, r, Done)
      else
        var k := |w.all|;
        var i := Instance(id, Created, None, None, None, None, 0, false, 0);
        SetRequest(w.(all := w.all + [i], live := w.live[id := k], events := w.events + [TaskCreate(k)]), r, Done)
    case StartLock(k) =>
      var i := w.all[k];
      if i.lock.Some? then w
      else
        (match Next(i.state, Start)
         case None => SetRequest(w, r, Done)
         case Some(s) =>
           var i' := Move(i, s).(lock := Some(r), starter := Some(r), starts := i.starts + 1);
           SetRequest(SetInstance(w, k, i'), r, StartRunning(k)))
    case StartRunning(k) =>
      var i := w.all[k];
      if ok then
        var i' := Try(i.(pid := if i.pid.None? then Some(value) else i.pid), Began);
        SetRequest(SetInstance(w, k, i'.(lock := None)), r, StartNotify(k, value))
      else
        SetRequest(SetInstance(w, k, Try(i, Stop).(lock := None)), r, Done)
    case StartNotify(k, pid) =>
      SetRequest(w.(events := w.events + [TaskStart(k, pid)]), r, WatchWait(k, pid))
    case WatchWait(k, pid) =>
      if w.all[k].exit.Some? then SetRequest(w, r, WatchLock(k, pid, w.all[k].exit.value)) else w
    case WatchLock(k, pid, v) => MarkExited(w, r, k, WatchEmit(k, pid, v))
    case WatchEmit(k, pid, v) => SetRequest(w.(events := w.events + [TaskExit(k, pid, v)]), r, Done)
    case KillLock(k) => LockStep(w, r, k, Kill, KillRunning(k))
    case KillRunning(k) => SetRequest(SetInstance(w, k, w.all[k].(lock := None)), r, Done)
    case DeleteLock(k, id) => LockStep(w, r, k, Delete, DeleteRunning(k, id))
    case DeleteRunning(k, id) =>
      var i := w.all[k];
      if ok then
        SetRequest(SetInstance(w, k, i.(lock := None, deletes := i.deletes + 1)), r, DeletePeek(k, id))
      else
        SetRequest(SetInstance(w, k, Try(i, Stop).(lock := None)), r, Done)
    case DeletePeek(k, id) =>
      var (w', seen) := Peek(w, k, ok);
      SetRequest(w', r, DeleteRemove(k, id, seen))
    case DeleteRemove(k, id, seen) =>
      SetRequest(w.(live := w.live - {id}, events := w.events + [TaskDelete(k, seen)],
                    reports := w.reports + Reported(k, seen)), r, Done)
    case WaitExit(k) =>
      if w.all[k].exit.Some? then SetRequest(w, r, WaitLock(k, w.all[k].exit.value)) else w
    case WaitLock(k, v) =>
      var w' := MarkExited(w, r, k, Done);
      if w.all[k].lock.None? then w'.(reports := w'.reports + [Report(k, v)]) else w'
    case StatePeek(k) =>
      var (w', seen) := Peek(w, k, ok);
      SetRequest(w'.(reports := w'.reports + Reported(k, seen)), r, Done)
    case ShutdownSet(inserted) =>
      SetRequest(w.(exit := if w.exit.None? then Some(inserted) else w.exit), r, Done)
    case Done => w
  }

  predicate RefersTo(req: Request, n: nat) {
    match req
    case Begin(_) => true
    case CreateInsert(_) => true
    case ShutdownSet(_) => true
    case Done => true
    case _ => req.k < n
  }

  function Do(w: World, a: Action): World {
    match a
    case Receive(r, call) => if r in w.requests then w else SetRequest(w, r, Begin(call))
    case Step(r, ok, value) =>
      if r in w.requests && RefersTo(w.requests[r], |w.all|) then StepOn(w, r, w.requests[r], ok, value) else w
    case ProcessExit(k, v) =>
      // the cell is set by the guard or watcher that `Instance::start` armed
      if k < |w.all| && w.all[k].starts > 0 && w.all[k].exit.None? then
        SetInstance(w, k, w.all[k].(exit := Some(v)))
      else w
  }

  function Exec(w: World, actions: seq<Action>): World {
    if actions == [] then w
    else Do(Exec(w, actions[..|actions| - 1]), actions[|actions| - 1])
  }

  lemma ExecSnoc(w: World, actions: seq<Action>, a: Action)
    ensures Exec(w, actions + [a]) == Do(Exec(w, actions), a)
  {
    assert (actions + [a])[..|actions|] == actions;
  }
}
