/**
 Runs that show where the cache's promises end: two engines overwrite each other's labels, a lost reply
 or a crash leaks a lease, a cut off upload leaves its bytes, and an image that shares its layers with
 another is never flagged.
 */
module CacheLimits {
  import opened Options
  import opened Content
  import opened Uploads
  import opened PrecompileCache
  import opened CacheWarmth
  import opened CacheLeases

  const LAYER := Sha256(Raw([1]))
  const LAYER_DESCRIPTOR := Descriptor(LAYER, "application/wasm")
  const IMAGE := Sha256(Manifest(Sha256(Raw([])), [LAYER_DESCRIPTOR]))
  const FIRST := Engine("wasmtime", 1)
  const SECOND := Engine("wasmtime", 2)

  /** Compiles the one layer, differently for each engine, and leaves everything else alone. */
  function Toy(e: Engine, b: Blob): Outcome {
    if b == Raw([1]) then Code(if e == FIRST then [2] else [3]) else Keep
  }

  lemma ToyLeavesItsOutputAlone()
    ensures OwnOutput(Toy)
  {
  }

  /** `n` served turns of client `me`, one after the other. */
  function After(w: World, me: nat, n: nat): World {
    if n == 0 then w else Do(Toy, After(w, me, n - 1), Turn(me, Served))
  }

  function Waiting(e: Engine): Client {
    ClientRecord(e, IMAGE, [LAYER_DESCRIPTOR], CheckImage, false, [], [], [])
  }

  function Compiled(e: Engine): Bytes {
    Toy(e, Raw([1])).code
  }

  function Updating(e: Engine, snapshot: Labels): Client {
    ClientRecord(e, IMAGE, [LAYER_DESCRIPTOR], LayerUpdate(snapshot), true,
                 [Layer(LAYER_DESCRIPTOR, Raw([1]))], [Some(Compiled(e))], [])
  }

  ghost predicate Cold(w: World, me: nat, e: Engine) {
    && me in w.clients && w.clients[me] == Waiting(e) && e !in w.leases && e !in w.uploads
    && IMAGE in w.store && LAYER in w.store && w.store[LAYER].data == Raw([1])
    && Precompile(e) !in w.store[IMAGE].labels && Precompile(e) !in w.store[LAYER].labels
    && Sha256(Raw(Compiled(e))) !in w.store
  }

  function SetClient(w: World, me: nat, cl: Client): World {
    w.(clients := w.clients[me := cl])
  }

  lemma ReadsOriginal(w: World, me: nat, e: Engine)
    requires Cold(w, me, e)
    ensures After(w, me, 3) == SetClient(w, me, Waiting(e).(pc := Compile, needsPrecompile := true,
                                                            layers := [Layer(LAYER_DESCRIPTOR, Raw([1]))]))
  {
    var cl1 := Waiting(e).(pc := ReadInfo, needsPrecompile := true);
    assert After(w, me, 1) == SetClient(w, me, cl1);
    var cl2 := cl1.(pc := ReadOriginal);
    assert After(w, me, 2) == SetClient(w, me, cl2);
    assert cl2.layers + [Layer(LAYER_DESCRIPTOR, Raw([1]))] == [Layer(LAYER_DESCRIPTOR, Raw([1]))];
  }

  lemma CompilesTheLayer(e: Engine)
    ensures CompileAll(Toy, e, [Layer(LAYER_DESCRIPTOR, Raw([1]))]) == [Some(Compiled(e))]
  {
    assert [Layer(LAYER_DESCRIPTOR, Raw([1]))][..0] == [];
  }

  lemma CompilesNext(w: World, me: nat, e: Engine)
    ensures Do(Toy, SetClient(w, me, Waiting(e).(pc := Compile, needsPrecompile := true,
                                                 layers := [Layer(LAYER_DESCRIPTOR, Raw([1]))])), Turn(me, Served)) ==
            SetClient(w, me, Updating(e, map[]).(pc := NextLayer))
  {
    CompilesTheLayer(e);
  }

  lemma EntersSave(w: World, me: nat, e: Engine)
    ensures Do(Toy, SetClient(w, me, Updating(e, map[]).(pc := NextLayer)), Turn(me, Served)) ==
            SetClient(w, me, Updating(e, map[]).(pc := AcquireLease))
  {
  }

  lemma Compiles(w: World, me: nat, e: Engine)
    requires Cold(w, me, e)
    ensures After(w, me, 5) == SetClient(w, me, Updating(e, map[]).(pc := AcquireLease))
  {
    ReadsOriginal(w, me, e);
    AfterNext(w, me, 3);
    CompilesNext(w, me, e);
    AfterNext(w, me, 4);
    EntersSave(w, me, e);
  }

  /** What a load of engine `e` adds to the store by committing. */
  function Committed(store: Store, e: Engine): Store {
    store[Sha256(Raw(Compiled(e))) := Entry(Raw(Compiled(e)), map[Original(e) := Ref(LAYER)])]
  }

  function UpdatingWorld(w: World, me: nat, e: Engine): World
    requires LAYER in w.store
  {
    World(Committed(w.store, e), w.images,
          w.leases[e := Lease(me, {Sha256(Raw(Compiled(e)))})],
          w.clients[me := Updating(e, w.store[LAYER].labels)], w.deleted, w.uploads - {e})
  }

  function LeasedWorld(w: World, me: nat, e: Engine): World {
    SetClient(w.(leases := w.leases[e := Lease(me, {})]), me, Updating(e, map[]).(pc := Commit))
  }

  function CommittedWorld(w: World, me: nat, e: Engine): World {
    SetClient(w.(store := Committed(w.store, e),
                 leases := w.leases[e := Lease(me, {Sha256(Raw(Compiled(e)))})], uploads := w.uploads - {e}),
              me, Updating(e, map[]).(pc := LayerInfo))
  }

  lemma TakesLease(w: World, me: nat, e: Engine)
    requires e !in w.leases
    ensures Do(Toy, SetClient(w, me, Updating(e, map[]).(pc := AcquireLease)), Turn(me, Served)) ==
            LeasedWorld(w, me, e)
  {
  }

  lemma Commits(w: World, me: nat, e: Engine)
    requires Sha256(Raw(Compiled(e))) !in w.store && e !in w.uploads
    ensures Do(Toy, LeasedWorld(w, me, e), Turn(me, Served)) == CommittedWorld(w, me, e)
  {
    var v := Sha256(Raw(Compiled(e)));
    assert {} + {v} == {v};
    assert w.leases[e := Lease(me, {})][e := Lease(me, {v})] == w.leases[e := Lease(me, {v})];
  }

  lemma ReadsLabels(w: World, me: nat, e: Engine)
    requires LAYER in w.store && LAYER != Sha256(Raw(Compiled(e)))
    ensures Do(Toy, CommittedWorld(w, me, e), Turn(me, Served)) == UpdatingWorld(w, me, e)
  {
  }

  lemma AfterNext(w: World, me: nat, n: nat)
    ensures After(w, me, n + 1) == Do(Toy, After(w, me, n), Turn(me, Served))
  {
  }

  lemma ReachesLease(w: World, me: nat, e: Engine)
    requires Cold(w, me, e)
    ensures After(w, me, 6) == LeasedWorld(w, me, e)
  {
    Compiles(w, me, e);
    AfterNext(w, me, 5);
    TakesLease(w, me, e);
  }

  /** From a store without its label, a lone load reaches the layer update after eight requests. */
  lemma ReachesUpdate(w: World, me: nat, e: Engine)
    requires Cold(w, me, e)
    ensures After(w, me, 8) == UpdatingWorld(w, me, e)
  {
    ReachesLease(w, me, e);
    AfterNext(w, me, 6);
    Commits(w, me, e);
    AfterNext(w, me, 7);
    ReadsLabels(w, me, e);
  }

  function Turns(me: nat, n: nat): seq<Action> {
    if n == 0 then [] else Turns(me, n - 1) + [Turn(me, Served)]
  }

  lemma {:induction false} AfterIsRun(prefix: seq<Action>, me: nat, n: nat)
    ensures Exec(Toy, INIT, prefix + Turns(me, n)) == After(Exec(Toy, INIT, prefix), me, n)
  {
    if n == 0 {
      assert prefix + [] == prefix;
    } else {
      var run := prefix + Turns(me, n - 1);
      AfterIsRun(prefix, me, n - 1);
      assert prefix + Turns(me, n) == run + [Turn(me, Served)];
      ExecSnoc(Toy, INIT, run, Turn(me, Served));
      AfterNext(Exec(Toy, INIT, prefix), me, n - 1);
    }
  }

  function Start(): seq<Action> {
    [Pull(IMAGE), Spawn(0, FIRST, IMAGE, {"application/wasm"}), Spawn(1, SECOND, IMAGE, {"application/wasm"})]
  }

  /** The pulled image with both loads about to begin. */
  lemma Pulls()
    ensures var w := Do(Toy, INIT, Pull(IMAGE));
            && w.leases == map[] && w.clients == map[] && w.uploads == map[]
            && w.store.Keys == {IMAGE, LAYER, Sha256(Raw([]))}
            && w.store[LAYER] == Entry(Raw([1]), map[])
            && w.store[IMAGE].labels == BaseLabels(IMAGE)
  {
    assert PulledSet(IMAGE) == {IMAGE, LAYER, Sha256(Raw([]))} by {
      assert IMAGE.blob.layers[0].digest == LAYER;
    }
  }

  lemma Spawns(w: World, me: nat, e: Engine)
    requires me !in w.clients
    ensures Do(Toy, w, Spawn(me, e, IMAGE, {"application/wasm"})) == SetClient(w, me, Waiting(e))
  {
    assert WasmLayers([LAYER_DESCRIPTOR], {"application/wasm"}) == [LAYER_DESCRIPTOR];
  }

  lemma BothStart() returns (w: World)
    ensures w == Exec(Toy, INIT, Start())
    ensures Cold(w, 0, FIRST) && Cold(w, 1, SECOND) && w.leases == map[]
    ensures w.store[LAYER].labels == map[]
  {
    StartRuns();
    Pulls();
    var w1 := Do(Toy, INIT, Pull(IMAGE));
    Spawns(w1, 0, FIRST);
    Spawns(SetClient(w1, 0, Waiting(FIRST)), 1, SECOND);
    w := SetClient(SetClient(w1, 0, Waiting(FIRST)), 1, Waiting(SECOND));
  }

  lemma StartRuns()
    ensures Exec(Toy, INIT, Start()) == Do(Toy, Do(Toy, Do(Toy, INIT, Start()[0]), Start()[1]), Start()[2])
  {
    ExecSnoc(Toy, INIT, [], Start()[0]);
    assert [] + [Start()[0]] == [Start()[0]];
    ExecSnoc(Toy, INIT, [Start()[0]], Start()[1]);
    ExecSnoc(Toy, INIT, [Start()[0]] + [Start()[1]], Start()[2]);
    assert Start() == [Start()[0]] + [Start()[1]] + [Start()[2]];
  }

  /** A served layer update of engine `e` writes its label over the labels it had read. */
  lemma Updates(w: World, me: nat, e: Engine, snapshot: Labels)
    requires me in w.clients && w.clients[me] == Updating(e, snapshot) && LAYER in w.store
    ensures var w' := Do(Toy, w, Turn(me, Served));
            && LAYER in w'.store
            && w'.store[LAYER].labels == LayerLabels(Updating(e, snapshot), snapshot)
            && forall x :: x in w.clients && x != me ==> x in w'.clients && w'.clients[x] == w.clients[x]
  {
  }

  lemma BothReachUpdate() returns (w: World, actions: seq<Action>)
    ensures w == Exec(Toy, INIT, actions)
    ensures 0 in w.clients && w.clients[0] == Updating(FIRST, map[])
    ensures 1 in w.clients && w.clients[1] == Updating(SECOND, map[])
    ensures LAYER in w.store
  {
    var w0 := BothStart();
    ReachesUpdate(w0, 0, FIRST);
    var w1 := UpdatingWorld(w0, 0, FIRST);
    assert Cold(w1, 1, SECOND);
    ReachesUpdate(w1, 1, SECOND);
    w := UpdatingWorld(w1, 1, SECOND);
    AfterIsRun(Start(), 0, 8);
    AfterIsRun(Start() + Turns(0, 8), 1, 8);
    actions := Start() + Turns(0, 8) + Turns(1, 8);
  }

  /**
   With two engine keys the lease does not protect the labels: there is a run in which the first
   engine has labelled the layer and the second engine's next request wipes that label out.
   */
  lemma TwoEnginesLoseAnUpdate() returns (actions: seq<Action>)
    ensures OwnOutput(Toy)
    ensures LAYER in Exec(Toy, INIT, actions).store
    ensures Precompile(FIRST) in Exec(Toy, INIT, actions).store[LAYER].labels
    ensures var w := Do(Toy, Exec(Toy, INIT, actions), Turn(1, Served));
            LAYER in w.store && Precompile(FIRST) !in w.store[LAYER].labels
  {
    var w, run := BothReachUpdate();
    Updates(w, 0, FIRST, map[]);
    Updates(Do(Toy, w, Turn(0, Served)), 1, SECOND, map[]);
    ExecSnoc(Toy, INIT, run, Turn(0, Served));
    actions := run + [Turn(0, Served)];
  }

  // ----- a leaked lease -----

  lemma Leaks(w: World)
    requires FIRST !in w.leases
    ensures Leaked(Do(Toy, SetClient(w, 0, Updating(FIRST, map[]).(pc := AcquireLease)), Turn(0, ReplyLost)), FIRST)
  {
  }

  /** A run in which the reply to the creation of a lease is lost: the client fails, the lease stays. */
  lemma LostReplyLeaksALease() returns (actions: seq<Action>)
    ensures OwnOutput(Toy) && Leaked(Exec(Toy, INIT, actions), FIRST)
  {
    var w0 := BothStart();
    Compiles(w0, 0, FIRST);
    AfterIsRun(Start(), 0, 5);
    Leaks(w0);
    ToyLeavesItsOutputAlone();
    var run := Start() + Turns(0, 5);
    ExecSnoc(Toy, INIT, run, Turn(0, ReplyLost));
    actions := run + [Turn(0, ReplyLost)];
  }

  lemma Dies(w: World)
    ensures Leaked(Do(Toy, LeasedWorld(w, 0, FIRST), Crash(0)), FIRST)
  {
  }

  /** A run in which the holder of a lease dies: nobody deletes the lease. */
  lemma CrashLeaksALease() returns (actions: seq<Action>)
    ensures OwnOutput(Toy) && Leaked(Exec(Toy, INIT, actions), FIRST)
  {
    var w0 := BothStart();
    ReachesLease(w0, 0, FIRST);
    AfterIsRun(Start(), 0, 6);
    ToyLeavesItsOutputAlone();
    Dies(w0);
    var run := Start() + Turns(0, 6);
    ExecSnoc(Toy, INIT, run, Crash(0));
    actions := run + [Crash(0)];
  }

  // ----- an upload that is cut off -----

  lemma CutsOff(w: World)
    requires Sha256(Raw([2])) !in w.store && FIRST !in w.uploads
    ensures LeftOver(Do(Toy, LeasedWorld(w, 0, FIRST), Turn(0, Cut(1))), FIRST) == [2]
  {
    assert Grown([], [2], 1) == [2];
  }

  /** A run in which the upload of a compiled layer is cut off and leaves its bytes behind. */
  lemma CutUploadLeavesItsBytes() returns (actions: seq<Action>)
    ensures OwnOutput(Toy) && LeftOver(Exec(Toy, INIT, actions), FIRST) == [2]
  {
    var w0 := BothStart();
    ReachesLease(w0, 0, FIRST);
    AfterIsRun(Start(), 0, 6);
    ToyLeavesItsOutputAlone();
    CutsOff(w0);
    var run := Start() + Turns(0, 6);
    ExecSnoc(Toy, INIT, run, Turn(0, Cut(1)));
    actions := run + [Turn(0, Cut(1))];
  }

  // ----- an image that is never flagged -----

  const OTHER := Sha256(Manifest(Sha256(Raw([9])), [LAYER_DESCRIPTOR]))

  function TwoImages(): seq<Action> {
    [Pull(IMAGE), Pull(OTHER), Spawn(0, FIRST, IMAGE, {"application/wasm"})]
  }

  lemma TwoImagesRun()
    ensures Exec(Toy, INIT, TwoImages()) ==
            Do(Toy, Do(Toy, Do(Toy, INIT, Pull(IMAGE)), Pull(OTHER)), TwoImages()[2])
  {
    var a := TwoImages();
    ExecSnoc(Toy, INIT, [], a[0]);
    assert [] + [a[0]] == [a[0]];
    ExecSnoc(Toy, INIT, [a[0]], a[1]);
    ExecSnoc(Toy, INIT, [a[0]] + [a[1]], a[2]);
    assert a == [a[0]] + [a[1]] + [a[2]];
  }

  lemma PullsOther(w: World)
    requires IMAGE in w.store && LAYER in w.store && OTHER !in w.store && Sha256(Raw([2])) !in w.store
    ensures var w' := Do(Toy, w, Pull(OTHER));
            && w' == w.(store := w'.store, images := w'.images)
            && IMAGE in w'.store && w'.store[IMAGE] == w.store[IMAGE]
            && LAYER in w'.store && w'.store[LAYER] == w.store[LAYER]
            && OTHER in w'.store && w'.store[OTHER].labels == BaseLabels(OTHER)
            && Sha256(Raw([2])) !in w'.store
  {
    assert PulledSet(OTHER) == {OTHER, Sha256(Raw([9])), LAYER} by {
      assert OTHER.blob.layers[0].digest == LAYER;
    }
  }

  lemma TwoImagesStart() returns (w: World)
    ensures w == Exec(Toy, INIT, TwoImages())
    ensures Cold(w, 0, FIRST) && w.clients.Keys == {0}
    ensures OTHER in w.store && w.store[OTHER].labels == BaseLabels(OTHER)
  {
    TwoImagesRun();
    Pulls();
    var w1 := Do(Toy, INIT, Pull(IMAGE));
    PullsOther(w1);
    var w2 := Do(Toy, w1, Pull(OTHER));
    Spawns(w2, 0, FIRST);
    w := SetClient(w2, 0, Waiting(FIRST));
  }

  /** The layer is labelled with its compilation, and the other image is not flagged. */
  ghost predicate LayerDone(w: World) {
    && LAYER in w.store && w.store[LAYER].data == Raw([1])
    && Precompile(FIRST) in w.store[LAYER].labels && w.store[LAYER].labels[Precompile(FIRST)] == Ref(Sha256(Raw([2])))
    && Sha256(Raw([2])) in w.store && w.store[Sha256(Raw([2]))].data == Raw([2])
    && OTHER in w.store && Precompile(FIRST) !in w.store[OTHER].labels
  }

  lemma UpdateStore(w: World)
    requires LAYER in w.store && 0 in w.clients && w.clients[0] == Updating(FIRST, w.store[LAYER].labels)
    ensures var w' := Do(Toy, w, Turn(0, Served));
            && w'.store == SetLabels(w.store, LAYER, LayerLabels(w.clients[0], w.store[LAYER].labels))
            && w'.clients.Keys == w.clients.Keys
  {
  }

  lemma UpdateDone(w: World)
    requires LAYER in w.store && OTHER in w.store && w.store[OTHER].labels == BaseLabels(OTHER)
    requires w.store[LAYER].data == Raw([1])
    ensures var w1 := UpdatingWorld(w, 0, FIRST); LayerDone(Do(Toy, w1, Turn(0, Served)))
    ensures Do(Toy, UpdatingWorld(w, 0, FIRST), Turn(0, Served)).clients.Keys == w.clients.Keys + {0}
  {
    UpdateStore(UpdatingWorld(w, 0, FIRST));
  }

  lemma LayerGetsDone() returns (w: World, actions: seq<Action>)
    ensures w == Exec(Toy, INIT, actions) && LayerDone(w) && 1 !in w.clients
  {
    var w0 := TwoImagesStart();
    ReachesUpdate(w0, 0, FIRST);
    AfterIsRun(TwoImages(), 0, 9);
    AfterNext(w0, 0, 8);
    UpdateDone(w0);
    w, actions := After(w0, 0, 9), TwoImages() + Turns(0, 9);
  }

  const CACHED := Layer(LAYER_DESCRIPTOR, Raw([2]))

  function Later(): Client {
    ClientRecord(FIRST, OTHER, [LAYER_DESCRIPTOR], CheckImage, false, [], [], [])
  }

  lemma SeesTheStore(w: World, w': World, cl: Client)
    requires w.store == w'.store && w.leases == w'.leases && w.uploads == w'.uploads
    ensures Continue(Toy, w, cl, true) == Continue(Toy, w', cl, true)
  {
  }

  /** A turn that only reads. */
  lemma OnlyReads(w: World, cl: Client)
    requires cl.pc.CheckImage? || cl.pc.ReadInfo? || cl.pc.ReadCached? || cl.pc.Compile? || cl.pc.NextLayer?
    ensures Do(Toy, SetClient(w, 1, cl), Turn(1, Served)) == SetClient(w, 1, Continue(Toy, w, cl, true))
  {
    var w1 := SetClient(w, 1, cl);
    SeesTheStore(w, w1, cl);
    assert Effect(w1, 1, cl) == w1;
    assert ClientTurn(Toy, w1, 1, Served) == SetClient(w1, 1, Continue(Toy, w1, cl, true));
  }

  lemma KeepsTheCachedLayer()
    ensures CompileAll(Toy, FIRST, [CACHED]) == [None]
  {
    assert [CACHED][..0] == [];
  }

  lemma LaterReads(w: World)
    requires LayerDone(w)
    ensures After(SetClient(w, 1, Later()), 1, 3) ==
            SetClient(w, 1, Later().(pc := Compile, needsPrecompile := true, layers := [CACHED]))
  {
    var w0 := SetClient(w, 1, Later());
    var cl1 := Later().(pc := ReadInfo, needsPrecompile := true);
    OnlyReads(w, Later());
    assert After(w0, 1, 1) == SetClient(w, 1, cl1);
    var cl2 := cl1.(pc := ReadCached(Sha256(Raw([2]))));
    OnlyReads(w, cl1);
    assert After(w0, 1, 2) == SetClient(w, 1, cl2);
    OnlyReads(w, cl2);
    assert cl2.layers + [CACHED] == [CACHED];
  }

  lemma LaterFinishes(w: World)
    requires LayerDone(w)
    ensures After(SetClient(w, 1, Later()), 1, 6) ==
            SetClient(w, 1, ClientRecord(FIRST, OTHER, [LAYER_DESCRIPTOR], Finished(Loaded([CACHED], false)),
                                         true, [CACHED], [None], [CACHED]))
  {
    LaterReads(w);
    var w0 := SetClient(w, 1, Later());
    var cl3 := Later().(pc := Compile, needsPrecompile := true, layers := [CACHED]);
    KeepsTheCachedLayer();
    AfterNext(w0, 1, 3);
    OnlyReads(w, cl3);
    var cl4 := cl3.(pc := NextLayer, compiled := [None]);
    AfterNext(w0, 1, 4);
    OnlyReads(w, cl4);
    assert [] + [CACHED] == [CACHED];
    AfterNext(w0, 1, 5);
    OnlyReads(w, cl4.(out := [CACHED]));
  }

  /**
   Two images share a layer that is already warm.  A load of the second image succeeds, finds the
   layer in the cache and yet calls the compiler and leaves the image without its flag, so the next
   load calls the compiler again.
   */
  lemma SharedLayersLeaveAnImageUnflagged() returns (actions: seq<Action>, me: nat)
    ensures OwnOutput(Toy)
    ensures var w := Exec(Toy, INIT, actions);
            && me in w.clients && w.clients[me].image == OTHER && w.clients[me].engine == FIRST
            && w.clients[me].pc == Finished(Loaded([CACHED], false)) && w.clients[me].needsPrecompile
            && LayerWarm(w, FIRST, LAYER_DESCRIPTOR) && OTHER in w.store && !ImageWarm(w, FIRST, OTHER)
  {
    var w, run := LayerGetsDone();
    var a := Spawn(1, FIRST, OTHER, {"application/wasm"});
    assert WasmLayers([LAYER_DESCRIPTOR], {"application/wasm"}) == [LAYER_DESCRIPTOR];
    ExecSnoc(Toy, INIT, run, a);
    LaterFinishes(w);
    AfterIsRun(run + [a], 1, 6);
    actions, me := run + [a] + Turns(1, 6), 1;
  }
}
