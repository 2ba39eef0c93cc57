/**
 The exit code of a container process: `Instance::start` arms a guard and a watcher task, the watcher
 polls the pidfd, and the shim's own reaper may collect the process first.
 */
module ExitWatcher {
  import opened Options
  import opened Sync

  /** How the process really ended. */
  datatype Status = Exited(code: int) | Signaled(signal: nat)

  /** `as u32` of an i32. */
  function AsU32(i: int): (r: nat)
    ensures r < 0x1_0000_0000
    ensures 0 <= i < 0x1_0000_0000 ==> r == i
  {
    i % 0x1_0000_0000
  }

  const KILLED: nat := 137

  /** The exit code reported for a process that ended with `s`. */
  function ExitCode(s: Status): nat {
    match s
    case Exited(code) => AsU32(code)
    case Signaled(signal) => AsU32(128 + signal)
  }

  /**
   What an exit code tells about how the process ended: its exit status as a u32, or 128 plus the
   signal that killed it.
   */
  ghost predicate Tells(code: nat, s: Status) {
    match s
    case Exited(n) =>
      && (0 <= n < 0x1_0000_0000 ==> code == n)
      && (-0x8000_0000 <= n < 0 ==> code == 0x1_0000_0000 + n)
    case Signaled(signal) => signal < 0xFFFF_FF80 ==> code == 128 + signal
  }

  /** What the shim's reaper publishes for a process it collected. */
  function Published(s: Status): int {
    match s
    case Exited(code) => code
    case Signaled(signal) => 128 + signal
  }

  datatype Subject = Pid(pid: int) | Exec(id: string, exec: string)

  datatype ExitEvent = ExitEvent(subject: Subject, exitCode: int)

  /** The code of the first event for `pid`. */
  function FirstFor(pid: int, events: seq<ExitEvent>): Option<int> {
    if events == [] then None
    else if events[0].subject == Pid(pid) then Some(events[0].exitCode)
    else FirstFor(pid, events[1..])
  }

  lemma {:induction false} FirstForAppend(pid: int, events: seq<ExitEvent>, e: ExitEvent)
    ensures FirstFor(pid, events + [e]) ==
            if FirstFor(pid, events).Some? then FirstFor(pid, events)
            else if e.subject == Pid(pid) then Some(e.exitCode) else None
  {
    if events == [] {
      assert [e][1..] == [];
    } else {
      assert (events + [e])[1..] == events[1..] + [e];
      FirstForAppend(pid, events[1..], e);
    }
  }

  /** `try_wait_pid`: take events until one is for `pid`; when they run out the wait has failed. */
  method TryWaitPid(pid: int, events: seq<ExitEvent>) returns (r: Option<int>)
    ensures r == FirstFor(pid, events)
    ensures r.None? <==> forall i :: 0 <= i < |events| ==> events[i].subject != Pid(pid)
    ensures r.Some? ==>
              exists i :: 0 <= i < |events| && events[i] == ExitEvent(Pid(pid), r.value) &&
                          forall j :: 0 <= j < i ==> events[j].subject != Pid(pid)
  {
    for i := 0 to |events|
      invariant forall j :: 0 <= j < i ==> events[j].subject != Pid(pid)
      invariant FirstFor(pid, events) == FirstFor(pid, events[i..])
    {
      var e := events[i];
      if !e.subject.Pid? { continue; }
      if pid == e.subject.pid {
        return Some(e.exitCode);
      }
    }
    r := None;
  }

  // ----- the watcher among the kernel and the reaper -----

  datatype Process =
    | Alive
    | Zombie(status: Status)      // ended, nobody has collected it
    | Reaping(status: Status)     // collected by the shim's reaper, not published yet
    | Gone(status: Status)        // collected and published by the shim's reaper
    | Waited(status: Status)      // collected by the watcher's own `waitid`

  datatype Place =
    | Polling                     // about to call `waitid`
    | Parked                      // awaits the pidfd becoming readable
    | Draining                    // `waitid` said ECHILD: reads the subscription
    | Reporting(code: nat)        // about to set the exit cell
    | Leaving                     // about to drop the guard
    | Ended

  /** `queue` is the subscription taken in `PidFd::new`; `unlucky` records an error, timeout or abort. */
  datatype Watch = Watch(
    pid: int, process: Process, queue: seq<ExitEvent>, place: Place, cell: Option<nat>, unlucky: bool)

  datatype Happening =
    | Exit(status: Status)        // the process ends
    | Reap                        // the shim's reaper collects it
    | Publish                     // and publishes its code
    | Noise(event: ExitEvent)     // some other process or exec is published
    | Run                         // the watcher task runs to its next await
    | Timeout                     // no event for two seconds
    | Fault                       // `waitid` or the pidfd fails otherwise
    | Abort                       // the watcher task is dropped or panics

  function Start(pid: int): Watch {
    Watch(pid, Alive, [], Polling, None, false)
  }

  predicate Unfinished(place: Place) {
    !place.Leaving? && !place.Ended?
  }

  function Do(w: Watch, h: Happening): Watch {
    match h
    case Exit(status) => if w.process.Alive? then w.(process := Zombie(status)) else w
    case Reap => if w.process.Zombie? then w.(process := Reaping(w.process.status)) else w
    case Publish =>
      if w.process.Reaping? then
        w.(process := Gone(w.process.status),
           queue := w.queue + [ExitEvent(Pid(w.pid), Published(w.process.status))])
      else w
    case Noise(event) =>
      // the pid is taken until the process has been collected and published
      if event.subject == Pid(w.pid) && !w.process.Gone? && !w.process.Waited? then w
      else w.(queue := w.queue + [event])
    case Run =>
      (match w.place
       case Polling =>
         (match w.process
          case Alive => w.(place := Parked)
          case Zombie(status) => w.(process := Waited(status), place := Reporting(ExitCode(status)))
          case _ => w.(place := Draining))
       case Parked => w.(place := Polling)
       case Draining =>
         if w.queue == [] then w
         else if w.queue[0].subject == Pid(w.pid) then
           w.(queue := w.queue[1..], place := Reporting(AsU32(w.queue[0].exitCode)))
         else w.(queue := w.queue[1..])
       case Reporting(code) => w.(cell := if w.cell.None? then Some(code) else w.cell, place := Leaving)
       case Leaving => w.(cell := if w.cell.None? then Some(KILLED) else w.cell, place := Ended)
       case Ended => w)
    case Timeout =>
      if w.place.Draining? && w.queue == [] then w.(place := Reporting(KILLED), unlucky := true) else w
    case Fault =>
      if w.place.Polling? || w.place.Parked? then w.(place := Reporting(KILLED), unlucky := true) else w
    case Abort =>
      if Unfinished(w.place) then w.(place := Leaving, unlucky := true) else w
  }

  function After(w: Watch, happenings: seq<Happening>): Watch {
    if happenings == [] then w
    else Do(After(w, happenings[..|happenings| - 1]), happenings[|happenings| - 1])
  }

  /** The code of the exit status if the process has one. */
  function Verdict(w: Watch): Option<nat> {
    if w.process.Alive? then None else Some(ExitCode(w.process.status))
  }

  ghost predicate Inv(w: Watch) {
    // the subscription holds our event exactly from its publication until the watcher takes it
    && (w.process.Alive? || w.process.Zombie? || w.process.Reaping? ==> FirstFor(w.pid, w.queue).None?)
    && (w.process.Gone? && (w.place.Polling? || w.place.Parked? || w.place.Draining?) ==>
          FirstFor(w.pid, w.queue) == Some(Published(w.process.status)))
    && (w.place.Draining? ==> w.process.Reaping? || w.process.Gone?)
    && (w.place.Polling? || w.place.Parked? ==> !w.process.Waited?)
    && (w.place.Reporting? ==> if w.unlucky then w.place.code == KILLED else Verdict(w) == Some(w.place.code))
    && (Unfinished(w.place) ==> w.cell.None? && (w.unlucky ==> w.place.Reporting?))
    && (w.place.Leaving? && w.cell.None? ==> w.unlucky)
    && (w.place.Ended? ==> w.cell.Some?)
    && (w.cell.Some? ==> if w.unlucky then w.cell == Some(KILLED) else w.cell == Verdict(w))
  }

  lemma DoKeepsInv(w: Watch, h: Happening)
    requires Inv(w)
    ensures Inv(Do(w, h))
  {
    match h
    case Publish =>
      if w.process.Reaping? {
        FirstForAppend(w.pid, w.queue, ExitEvent(Pid(w.pid), Published(w.process.status)));
      }
    case Noise(event) => FirstForAppend(w.pid, w.queue, event);
    case _ =>
  }

  lemma {:induction false} RunKeepsInv(w: Watch, happenings: seq<Happening>)
    requires Inv(w)
    ensures Inv(After(w, happenings))
  {
    if happenings != [] {
      RunKeepsInv(w, happenings[..|happenings| - 1]);
      DoKeepsInv(After(w, happenings[..|happenings| - 1]), happenings[|happenings| - 1]);
    }
  }

  /**
   In every interleaving of the process, the reaper and the watcher: when the watcher is done the exit
   cell is set.  It holds the code of the real exit status, whichever of `waitid` and the reaper
   collected the process, and 137 if the wait failed, timed out or was aborted.
   */
  lemma ExitCellHoldsTheVerdict(pid: int, happenings: seq<Happening>)
    requires After(Start(pid), happenings).place.Ended?
    ensures var w := After(Start(pid), happenings);
            && w.cell.Some?
            && (!w.unlucky ==> !w.process.Alive? && Tells(w.cell.value, w.process.status))
            && (w.unlucky ==> w.cell == Some(137))
  {
    RunKeepsInv(Start(pid), happenings);
    var w := After(Start(pid), happenings);
    if !w.unlucky { CodeTells(w.process.status); }
  }

  lemma CodeTells(s: Status)
    ensures Tells(ExitCode(s), s)
  {
  }

  /** What happens around the watcher: the process ends once, and the reaper publishes how. */
  lemma Surroundings(w: Watch, s: Status)
    ensures w.process.Alive? ==> Do(w, Exit(s)) == w.(process := Zombie(s))
    ensures w.process == Zombie(s) ==> Do(w, Reap) == w.(process := Reaping(s))
    ensures w.process == Reaping(s) ==>
              var code := match s { case Exited(n) => n case Signaled(signal) => 128 + signal };
              Do(w, Publish) == w.(process := Gone(s), queue := w.queue + [ExitEvent(Pid(w.pid), code)])
  {
  }

  // ----- the watcher comes to an end -----

  function Runs(w: Watch, n: nat): Watch
    decreases n
  {
    if n == 0 then w else Runs(Do(w, Run), n - 1)
  }

  /** How often a watcher runs before it has set the cell and dropped its guard, once the process is settled. */
  function Left(w: Watch): nat {
    match w.place
    case Parked => |w.queue| + 5
    case Polling => |w.queue| + 4
    case Draining => |w.queue| + 3
    case Reporting(_) => 2
    case Leaving => 1
    case Ended => 0
  }

  /** The process has ended and is not between being collected and being published. */
  predicate Settled(w: Watch) {
    !w.process.Alive? && !w.process.Reaping?
  }

  lemma RunProgresses(w: Watch)
    requires Inv(w) && Settled(w) && !w.place.Ended?
    ensures Settled(Do(w, Run)) && Left(Do(w, Run)) < Left(w) && Do(w, Run).unlucky == w.unlucky
  {
  }

  lemma {:induction false} RunsEnd(w: Watch, n: nat)
    requires Inv(w) && Settled(w) && n >= Left(w)
    ensures Inv(Runs(w, n)) && Runs(w, n).place.Ended? && Runs(w, n).unlucky == w.unlucky
    decreases n
  {
    if n > 0 {
      DoKeepsInv(w, Run);
      if w.place.Ended? { assert Do(w, Run) == w; } else { RunProgresses(w); }
      RunsEnd(Do(w, Run), n - 1);
    }
  }

  /**
   From every state of every interleaving: once the process has ended, and if the reaper collected it
   also been published, the watcher only has to run a bounded number of times to end, and unless it was
   unlucky before the cell then tells how the process ended.
   */
  lemma WatcherFinishes(pid: int, happenings: seq<Happening>, n: nat)
    requires var w := After(Start(pid), happenings); Settled(w) && n >= |w.queue| + 5
    ensures var w := After(Start(pid), happenings);
            var done := Runs(w, n);
            && done.place.Ended? && done.cell.Some?
            && (!w.unlucky ==> !done.process.Alive? && Tells(done.cell.value, done.process.status))
            && (w.unlucky ==> done.cell == Some(137))
  {
    var w := After(Start(pid), happenings);
    RunKeepsInv(Start(pid), happenings);
    RunsEnd(w, n);
    if !w.unlucky { CodeTells(Runs(w, n).process.status); }
  }

  /** Waiting for the subscription only runs dry before the reaper has published. */
  lemma TimeoutOnlyBeforePublication(pid: int, happenings: seq<Happening>)
    requires var w := After(Start(pid), happenings); w.place.Draining? && w.queue == []
    ensures After(Start(pid), happenings).process.Reaping?
  {
    RunKeepsInv(Start(pid), happenings);
  }

  /** A cell that has a value keeps it through the drop of the guard and everything after. */
  lemma {:induction false} CellIsWriteOnce(w: Watch, happenings: seq<Happening>)
    requires w.cell.Some?
    ensures After(w, happenings).cell == w.cell
  {
    if happenings != [] {
      CellIsWriteOnce(w, happenings[..|happenings| - 1]);
    }
  }

  // ----- the synchronous part of `start` -----

  datatype StartResult = Started(pid: int) | StartFailed

  /**
   `Instance::start`: the guard is armed first, so any early error leaves the cell set to 137, and
   success hands an armed guard to the watcher with the cell untouched.
   */
  method StartInstance(cell: WaitableCell<nat>, pid: Option<int>, pidFdOpens: bool, containerStarts: bool)
    returns (r: StartResult, guard: SetGuard<nat>)
    modifies cell
    ensures fresh(guard) && guard.cell == cell
    ensures r.Started? <==> pid.Some? && pidFdOpens && containerStarts
    ensures r.Started? ==> r.pid == pid.value && cell.value == old(cell.value) && guard.fallback == Some(137)
    ensures r.StartFailed? ==> cell.value.Some? && guard.fallback.None?
    ensures r.StartFailed? ==> cell.value == if old(cell.value).Some? then old(cell.value) else Some(137)
  {
    guard := new SetGuard(cell, KILLED);
    if pid.None? || !pidFdOpens || !containerStarts {
      guard.Drop();
      r := StartFailed;
      return;
    }
    r := Started(pid.value);
  }
}
