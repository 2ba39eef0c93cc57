/** Runs in which overlapping requests for one id make a shim lose an instance. */
module ShutdownLimits {
  import opened Options
  import opened TaskState
  import opened TaskService
  import opened TaskShutdown

  // ----- two creates -----

  /** Two creates of one id, each checked before either inserts. */
  function BothChecked(): seq<Action> {
    [Receive(0, CreateCall("a"))] + [Receive(1, CreateCall("a"))] + [Step(0, true, 0)] + [Step(1, true, 0)]
  }

  lemma BothPassTheCheck()
    ensures var w := Exec(INIT, BothChecked());
            && w.requests == map[0 := CreateInsert("a"), 1 := CreateInsert("a")]
            && w.live == map[] && w.all == []
    ensures !OrderlyRun(BothChecked())
  {
    var first := [Receive(0, CreateCall("a"))];
    ExecSnoc(INIT, [], first[0]);
    assert [] + [first[0]] == first;
    ExecSnoc(INIT, first, Receive(1, CreateCall("a")));
    var both := first + [Receive(1, CreateCall("a"))];
    ExecSnoc(INIT, both, Step(0, true, 0));
    ExecSnoc(INIT, both + [Step(0, true, 0)], Step(1, true, 0));
    assert BothChecked()[..1] == first;
    assert Claims(Exec(INIT, first).requests[0]) == Some("a");
    assert !Orderly(Exec(INIT, BothChecked()[..1]), BothChecked()[1]);
  }

  /** The second insert then forgets the first instance: it is neither live nor deleted. */
  lemma OverlappingCreatesLoseAnInstance()
    ensures var w := Exec(INIT, BothChecked() + [Step(0, true, 0)] + [Step(1, true, 0)]);
            |w.all| == 2 && !Accounted(w, 0) && Accounted(w, 1)
  {
    BothPassTheCheck();
    ExecSnoc(INIT, BothChecked(), Step(0, true, 0));
    ExecSnoc(INIT, BothChecked() + [Step(0, true, 0)], Step(1, true, 0));
  }

  // ----- two deletes and a create -----

  const EXIT := Verdict(0, 0)
  const NEW := Instance("a", Created, None, None, None, None, 0, false, 0)
  const UP := Instance("a", Started, None, Some(7), None, Some(1), 1, false, 0)
  const DOWN := Instance("a", Exited, None, Some(7), Some(EXIT), Some(1), 1, true, 0)

  lemma Then(run: seq<Action>, a: Action) returns (longer: seq<Action>)
    ensures Exec(INIT, longer) == Do(Exec(INIT, run), a)
  {
    ExecSnoc(INIT, run, a);
    longer := run + [a];
  }

  /** Instances and map, and which request ids are in use. */
  ghost predicate At(w: World, all: seq<Instance>, live: map<string, nat>, used: nat) {
    w.all == all && w.live == live && w.exit.None? && forall r :: r in w.requests ==> r < used
  }

  lemma Creates() returns (run: seq<Action>)
    ensures At(Exec(INIT, run), [NEW], map["a" := 0], 1)
  {
    run := Then([], Receive(0, CreateCall("a")));
    run := Then(run, Step(0, true, 0));
    run := Then(run, Step(0, true, 0));
  }

  /** Request `r` moves to `next`, the others stay where they are. */
  ghost predicate Moves(w: World, w': World, r: nat, next: Request) {
    && r in w'.requests && w'.requests[r] == next
    && (forall x :: x in w.requests && x != r ==> x in w'.requests && w'.requests[x] == w.requests[x])
    && w'.exit == w.exit && (forall x :: x in w'.requests ==> x in w.requests)
  }

  lemma StartLocks(w: World)
    requires w.all == [NEW] && 1 in w.requests && w.requests[1] == StartLock(0)
    ensures var w' := Do(w, Step(1, true, 7));
            && w'.all == [NEW.(state := Starting, lock := Some(1), starter := Some(1), starts := 1)] && w'.live == w.live
            && Moves(w, w', 1, StartRunning(0))
  {
  }

  lemma StartRuns(w: World)
    requires w.all == [NEW.(state := Starting, lock := Some(1), starter := Some(1), starts := 1)]
    requires 1 in w.requests && w.requests[1] == StartRunning(0)
    ensures var w' := Do(w, Step(1, true, 7));
            w'.all == [UP] && w'.live == w.live && Moves(w, w', 1, StartNotify(0, 7))
  {
  }

  lemma Starts() returns (run: seq<Action>)
    ensures At(Exec(INIT, run), [UP], map["a" := 0], 2)
  {
    run := Creates();
    run := Then(run, Receive(1, StartCall("a")));
    run := Then(run, Step(1, true, 7));
    StartLocks(Exec(INIT, run));
    run := Then(run, Step(1, true, 7));
    StartRuns(Exec(INIT, run));
    run := Then(run, Step(1, true, 7));
  }

  lemma Exits() returns (run: seq<Action>)
    ensures At(Exec(INIT, run), [DOWN], map["a" := 0], 3)
  {
    run := Starts();
    run := Then(run, ProcessExit(0, EXIT));
    assert Exec(INIT, run).all == [UP.(exit := Some(EXIT))];
    run := Then(run, Receive(2, StateCall("a")));
    run := Then(run, Step(2, true, 0));
    run := Then(run, Step(2, true, 0));
  }

  lemma BothDeletesBegin() returns (run: seq<Action>)
    ensures At(Exec(INIT, run), [DOWN], map["a" := 0], 5)
    ensures 3 in Exec(INIT, run).requests && Exec(INIT, run).requests[3] == DeleteLock(0, "a")
    ensures 4 in Exec(INIT, run).requests && Exec(INIT, run).requests[4] == DeleteLock(0, "a")
  {
    run := Exits();
    run := Then(run, Receive(3, DeleteCall("a")));
    run := Then(run, Step(3, true, 0));
    run := Then(run, Receive(4, DeleteCall("a")));
    run := Then(run, Step(4, true, 0));
  }

  lemma Locks(w: World, r: nat, n: nat)
    requires w.all == [DOWN.(deletes := n)] && r in w.requests && w.requests[r] == DeleteLock(0, "a")
    ensures var w' := Do(w, Step(r, true, 0));
            && w'.all == [DOWN.(state := Deleting, lock := Some(r), deletes := n)] && w'.live == w.live
            && Moves(w, w', r, DeleteRunning(0, "a"))
  {
  }

  lemma Runs(w: World, r: nat, n: nat)
    requires w.all == [DOWN.(state := Deleting, lock := Some(r), deletes := n)]
    requires r in w.requests && w.requests[r] == DeleteRunning(0, "a")
    ensures var w' := Do(w, Step(r, true, 0));
            && w'.all == [DOWN.(state := Deleting, deletes := n + 1)] && w'.live == w.live
            && Moves(w, w', r, DeletePeek(0, "a"))
  {
  }

  lemma Peeks(w: World, r: nat, n: nat)
    requires w.all == [DOWN.(state := Deleting, deletes := n)]
    requires r in w.requests && w.requests[r] == DeletePeek(0, "a")
    ensures var w' := Do(w, Step(r, true, 0));
            && w'.all == [DOWN.(deletes := n)] && w'.live == w.live
            && Moves(w, w', r, DeleteRemove(0, "a", Some(EXIT)))
  {
  }

  /** One delete from its lock to the point where it has yet to remove the entry; the task is Exited again. */
  lemma Deletes(run: seq<Action>, r: nat, n: nat) returns (longer: seq<Action>)
    requires At(Exec(INIT, run), [DOWN.(deletes := n)], map["a" := 0], 5)
    requires r in Exec(INIT, run).requests && Exec(INIT, run).requests[r] == DeleteLock(0, "a")
    ensures At(Exec(INIT, longer), [DOWN.(deletes := n + 1)], map["a" := 0], 5)
    ensures Moves(Exec(INIT, run), Exec(INIT, longer), r, DeleteRemove(0, "a", Some(EXIT)))
  {
    Locks(Exec(INIT, run), r, n);
    longer := Then(run, Step(r, true, 0));
    Runs(Exec(INIT, longer), r, n);
    longer := Then(longer, Step(r, true, 0));
    Peeks(Exec(INIT, longer), r, n + 1);
    longer := Then(longer, Step(r, true, 0));
  }

  lemma BothDelete() returns (run: seq<Action>)
    ensures At(Exec(INIT, run), [DOWN.(deletes := 2)], map["a" := 0], 5)
    ensures 3 in Exec(INIT, run).requests && Exec(INIT, run).requests[3] == DeleteRemove(0, "a", Some(EXIT))
    ensures 4 in Exec(INIT, run).requests && Exec(INIT, run).requests[4] == DeleteRemove(0, "a", Some(EXIT))
  {
    run := BothDeletesBegin();
    assert DOWN.(deletes := 0) == DOWN;
    run := Deletes(run, 3, 0);
    run := Deletes(run, 4, 1);
  }

  /** The first delete removes the entry and the id is created anew before the second one does. */
  lemma CreatesAgain() returns (run: seq<Action>)
    ensures At(Exec(INIT, run), [DOWN.(deletes := 2), NEW], map["a" := 1], 6)
    ensures 4 in Exec(INIT, run).requests && Exec(INIT, run).requests[4] == DeleteRemove(0, "a", Some(EXIT))
  {
    run := BothDelete();
    run := Then(run, Step(3, true, 0));
    assert Exec(INIT, run).live == map[];
    run := Then(run, Receive(5, CreateCall("a")));
    run := Then(run, Step(5, true, 0));
    run := Then(run, Step(5, true, 0));
    assert [DOWN.(deletes := 2)] + [NEW] == [DOWN.(deletes := 2), NEW];
  }

  lemma RemovesTheNewOne() returns (run: seq<Action>)
    ensures At(Exec(INIT, run), [DOWN.(deletes := 2), NEW], map[], 6)
  {
    run := CreatesAgain();
    run := Then(run, Step(4, true, 0));
  }

  lemma ShutsDown(w: World)
    requires At(w, w.all, map[], 6)
    ensures var w' := Do(Do(Do(w, Receive(6, ShutdownCall)), Step(6, true, 0)), Step(6, true, 0));
            w'.all == w.all && w'.live == map[] && w'.exit == Some(|w.all|)
  {
  }

  /**
   Two overlapping deletes of one exited task and a create of the same id: the late removal, which goes
   by id, takes out the new instance.  It is neither live nor deleted, and a shutdown sets the exit.
   */
  lemma OverlappingDeletesLoseAnInstance() returns (run: seq<Action>)
    ensures var w := Exec(INIT, run);
            |w.all| == 2 && w.live == map[] && w.all[1] == NEW && !Accounted(w, 1) && w.exit == Some(2)
  {
    run := RemovesTheNewOne();
    ShutsDown(Exec(INIT, run));
    run := Then(run, Receive(6, ShutdownCall));
    run := Then(run, Step(6, true, 0));
    run := Then(run, Step(6, true, 0));
  }
}
