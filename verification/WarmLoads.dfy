/**
 Warm loads: once the cache is warm for an image, loads with the same engine key only read, whatever
 other clients and the collector do in between.
 */
module WarmLoads {
  import opened Options
  import opened Content
  import opened PrecompileCache
  import opened CacheCoherence
  import opened CacheRetention
  import opened CacheWarmth
  import opened LoadOutcome

  /** A client that has met the cache warm so far: it never compiles, leases or writes. */
  ghost predicate WarmReader(cl: Client) {
    && !cl.needsPrecompile
    && (cl.pc.CheckImage? || cl.pc.ReadInfo? || cl.pc.ReadCached? ||
        (cl.pc.Finished? && cl.pc.result == Loaded(cl.layers, false) && |cl.layers| == |cl.configs|))
  }

  /** Own requests answered so far; a warm load of n layers takes 2n + 1. */
  function Answered(cl: Client): nat {
    match cl.pc
    case CheckImage => 0
    case ReadInfo => 1 + 2 * |cl.layers|
    case ReadCached(_) => 2 + 2 * |cl.layers|
    case _ => 1 + 2 * |cl.configs|
  }

  lemma WarmTurn(c: Compiler, e: Engine, w: World, cl: Client)
    requires StoreInv(c, w.store) && ClientInv(c, cl) && cl.engine == e
    requires Warm(w, e, cl.image, cl.configs) && WarmReader(cl)
    ensures WarmReader(Continue(c, w, cl, true))
    ensures Answered(Continue(c, w, cl, true)) >= Answered(cl) + if cl.pc.Finished? then 0 else 1
  {
    if cl.pc.ReadInfo? || cl.pc.ReadCached? {
      var d := cl.configs[|cl.layers|].digest;
      assert LayerWarm(w, e, cl.configs[|cl.layers|]);
      assert Coherent(c, d, w.store[d].labels);
      if cl.pc.ReadCached? {
        assert cl.pc.cached == w.store[d].labels[Precompile(e)].digest;
      }
    }
  }

  lemma WarmStays(e: Engine, image: Digest, w: World, w': World, cl: Client)
    requires StaysWarm(e, image, w, w') && Loads(e, image, cl) && Warm(w, e, image, cl.configs)
    ensures Warm(w', e, image, cl.configs)
  {
  }

  /** Gentle actions among which all requests of client `me` are served. */
  ghost predicate GentleServed(c: Compiler, e: Engine, image: Digest, me: nat, actions: seq<Action>) {
    forall i :: 0 <= i < |actions| ==>
      && Gentle(c, e, image, actions[i])
      && OwnServed(me, actions[i])
  }

  /** The action is not a request of client `me` that fails, nor its crash. */
  predicate OwnServed(me: nat, a: Action) {
    Own(me, a) ==> a.Turn? && a.fate.Served?
  }

  /** Client `me` is a warm reader of `image` in a running world. */
  ghost predicate WarmRun(c: Compiler, e: Engine, image: Digest, w: World, me: nat) {
    && Running(c, e, image, w) && me in w.clients && Loads(e, image, w.clients[me])
    && Warm(w, e, image, w.clients[me].configs) && WarmReader(w.clients[me])
  }

  lemma WarmStep(c: Compiler, e: Engine, image: Digest, w: World, me: nat, a: Action)
    requires WarmRun(c, e, image, w, me) && Gentle(c, e, image, a) && (a.Spawn? ==> a.engine == e)
    requires OwnServed(me, a)
    ensures WarmRun(c, e, image, Do(c, w, a), me)
    ensures Do(c, w, a).clients[me].configs == w.clients[me].configs
    ensures Answered(Do(c, w, a).clients[me]) >=
              Answered(w.clients[me]) + if a.Turn? && a.me == me && !w.clients[me].pc.Finished? then 1 else 0
  {
    StepKeepsWarm(c, e, image, w, a);
    ClientAfter(c, w, a, me);
    WarmStays(e, image, w, Do(c, w, a), w.clients[me]);
    if a.Turn? && a.me == me {
      WarmTurn(c, e, w, w.clients[me]);
    }
  }

  lemma WarmReaderWritesNothing(c: Compiler, w: World, me: nat, fate: Fate)
    requires me in w.clients && WarmReader(w.clients[me])
    ensures ClientTurn(c, w, me, fate).store == w.store
    ensures ClientTurn(c, w, me, fate).leases == w.leases
  {
  }

  lemma {:induction false} WarmRunLasts(
    c: Compiler, e: Engine, image: Digest, w: World, me: nat, actions: seq<Action>)
    requires WarmRun(c, e, image, w, me) && OnlyEngine(e, actions) && GentleServed(c, e, image, me, actions)
    ensures WarmRun(c, e, image, Exec(c, w, actions), me)
    ensures Exec(c, w, actions).clients[me].configs == w.clients[me].configs
    ensures Exec(c, w, actions).clients[me].pc.Finished? ||
            Answered(Exec(c, w, actions).clients[me]) >= OwnTurns(me, actions)
  {
    if actions != [] {
      var n := |actions| - 1;
      var before := Exec(c, w, actions[..n]);
      WarmRunLasts(c, e, image, w, me, actions[..n]);
      WarmStep(c, e, image, before, me, actions[n]);
    }
  }

  /**
   Starting warm, in every interleaving with gentle actions of other clients and the collector, a
   load whose own requests are served never compiles, takes no lease and writes nothing, is done
   after at most 2n + 1 requests, and returns the cached compilation of every layer.
   */
  lemma WarmLoadsOnlyRead(c: Compiler, e: Engine, image: Digest, w: World, me: nat, actions: seq<Action>)
    requires WarmRun(c, e, image, w, me) && OnlyEngine(e, actions) && GentleServed(c, e, image, me, actions)
    ensures me in Exec(c, w, actions).clients && WarmReader(Exec(c, w, actions).clients[me])
    ensures forall fate :: var w' := Exec(c, w, actions);
              && ClientTurn(c, w', me, fate).store == w'.store
              && ClientTurn(c, w', me, fate).leases == w'.leases
    ensures OwnTurns(me, actions) >= 2 * |w.clients[me].configs| + 1 ==>
              Exec(c, w, actions).clients[me].pc.Finished?
    ensures var cl := Exec(c, w, actions).clients[me];
            cl.pc.Finished? ==>
              forall i :: 0 <= i < |cl.configs| ==>
                && cl.pc.result.layers[i].config == cl.configs[i]
                && IsCode(c, e, cl.configs[i].digest.blob, cl.pc.result.layers[i].data)
  {
    WarmRunLasts(c, e, image, w, me, actions);
    var w' := Exec(c, w, actions);
    forall fate
      ensures ClientTurn(c, w', me, fate).store == w'.store && ClientTurn(c, w', me, fate).leases == w'.leases
    {
      WarmReaderWritesNothing(c, w', me, fate);
    }
    assert ClientInv(c, w'.clients[me]);
  }

  // ----- one warm layer -----

  /** Layer `i` is warm, and if the client has read it, it has read the compilation. */
  ghost predicate ReadsWarm(c: Compiler, e: Engine, w: World, cl: Client, i: nat) {
    && i < |cl.configs| && LayerWarm(w, e, cl.configs[i])
    && (i < |cl.layers| ==> IsCode(c, e, cl.configs[i].digest.blob, cl.layers[i].data))
    && (cl.pc.ReadCached? && i == |cl.layers| ==> Labelled(w, e, cl.configs[i], cl.pc.cached))
    && (cl.pc.ReadOriginal? ==> i != |cl.layers|)
  }

  lemma PushReadsWarm(c: Compiler, e: Engine, w: World, cl: Client, data: Blob, i: nat)
    requires ReadsWarm(c, e, w, cl, i) && |cl.layers| < |cl.configs|
    requires i == |cl.layers| ==> IsCode(c, e, cl.configs[i].digest.blob, data)
    ensures ReadsWarm(c, e, w, PushLayer(cl, data), i)
  {
  }

  lemma ReadsWarmPush(c: Compiler, e: Engine, w: World, cl: Client, i: nat)
    requires ClientInv(c, cl) && cl.engine == e && ReadsWarm(c, e, w, cl, i)
    requires cl.pc.ReadCached? || cl.pc.ReadOriginal?
    requires cl.pc.ReadCached? && cl.pc.cached in w.store ==> w.store[cl.pc.cached].data == cl.pc.cached.blob
    ensures ReadsWarm(c, e, w, Continue(c, w, cl, true), i)
  {
    if cl.pc.ReadCached? {
      if cl.pc.cached in w.store { PushReadsWarm(c, e, w, cl, w.store[cl.pc.cached].data, i); }
    } else {
      var d := cl.configs[|cl.layers|].digest;
      if d in w.store { PushReadsWarm(c, e, w, cl, w.store[d].data, i); }
    }
  }

  lemma ReadsWarmOther(c: Compiler, e: Engine, w: World, cl: Client, i: nat)
    requires cl.engine == e && ReadsWarm(c, e, w, cl, i) && !cl.pc.ReadCached? && !cl.pc.ReadOriginal?
    ensures ReadsWarm(c, e, w, Continue(c, w, cl, true), i)
  {
  }

  lemma ReadsWarmTurn(c: Compiler, e: Engine, w: World, cl: Client, i: nat)
    requires StoreInv(c, w.store) && ClientInv(c, cl) && cl.engine == e && ReadsWarm(c, e, w, cl, i)
    ensures ReadsWarm(c, e, w, Continue(c, w, cl, true), i)
  {
    var d := cl.configs[i].digest;
    assert EntryInv(c, d, w.store[d]);
    if cl.pc.ReadCached? || cl.pc.ReadOriginal? {
      if cl.pc.ReadCached? && cl.pc.cached in w.store { assert EntryInv(c, cl.pc.cached, w.store[cl.pc.cached]); }
      ReadsWarmPush(c, e, w, cl, i);
    } else {
      ReadsWarmOther(c, e, w, cl, i);
    }
  }

  ghost predicate ReadsWarmRun(c: Compiler, e: Engine, image: Digest, w: World, me: nat, i: nat) {
    && Running(c, e, image, w) && me in w.clients && Loads(e, image, w.clients[me])
    && ReadsWarm(c, e, w, w.clients[me], i)
  }

  lemma ReadsWarmStep(c: Compiler, e: Engine, image: Digest, w: World, me: nat, a: Action, i: nat)
    requires ReadsWarmRun(c, e, image, w, me, i) && Gentle(c, e, image, a) && (a.Spawn? ==> a.engine == e)
    requires OwnServed(me, a)
    ensures ReadsWarmRun(c, e, image, Do(c, w, a), me, i)
  {
    StepKeepsWarm(c, e, image, w, a);
    ClientAfter(c, w, a, me);
    if a.Turn? && a.me == me { ReadsWarmTurn(c, e, w, w.clients[me], i); }
  }

  lemma {:induction false} ReadsWarmLasts(
    c: Compiler, e: Engine, image: Digest, w: World, me: nat, actions: seq<Action>, i: nat)
    requires ReadsWarmRun(c, e, image, w, me, i) && OnlyEngine(e, actions)
    requires GentleServed(c, e, image, me, actions)
    ensures ReadsWarmRun(c, e, image, Exec(c, w, actions), me, i)
  {
    if actions != [] {
      var n := |actions| - 1;
      ReadsWarmLasts(c, e, image, w, me, actions[..n], i);
      ReadsWarmStep(c, e, image, Exec(c, w, actions[..n]), me, actions[n], i);
    }
  }

  /**
   Once a layer is warm no later load compiles or saves it again, also when the load has other layers
   to compile: in every interleaving it reads the cached compilation and has no compiled entry for it.
   */
  lemma WarmLayersAreNotRecompiled(
    c: Compiler, e: Engine, image: Digest, w: World, me: nat, actions: seq<Action>, i: nat)
    requires Running(c, e, image, w) && OnlyEngine(e, actions) && GentleServed(c, e, image, me, actions)
    requires me in w.clients && Begins(e, image, w.clients[me])
    requires i < |w.clients[me].configs| && LayerWarm(w, e, w.clients[me].configs[i])
    ensures var cl := Exec(c, w, actions).clients;
            && me in cl && i < |cl[me].configs|
            && (i < |cl[me].layers| ==> IsCode(c, e, cl[me].configs[i].digest.blob, cl[me].layers[i].data))
            && (cl[me].pc.NextLayer? || Saving(cl[me].pc) ==> cl[me].compiled[i].None?)
  {
    ReadsWarmLasts(c, e, image, w, me, actions, i);
    var cl := Exec(c, w, actions).clients[me];
    assert ClientInv(c, cl);
    if cl.pc.NextLayer? || Saving(cl.pc) { Alignment(c, e, cl.layers); }
  }

  // ----- one load after another -----

  /** The supported layers of an image are plain blobs. */
  ghost predicate PlainLayers(image: Digest, supported: set<string>) {
    image.blob.Manifest? &&
    forall x :: x in image.blob.layers && x.mediaType in supported ==> x.digest.blob.Raw?
  }

  lemma SpawnBegins(c: Compiler, e: Engine, image: Digest, supported: set<string>, w: World, me: nat)
    requires me !in w.clients && PlainLayers(image, supported)
    requires WasmLayers(image.blob.layers, supported) != []
    ensures var w' := Do(c, w, Spawn(me, e, image, supported));
            && me in w'.clients && Begins(e, image, w'.clients[me])
            && w'.clients[me] == ClientRecord(e, image, WasmLayers(image.blob.layers, supported), CheckImage, false, [], [], [])
            && w'.store == w.store
  {
  }

  /** The run of a first load of `image` by client `me`, asked for after any history `before`. */
  function FirstLoad(
    e: Engine, image: Digest, supported: set<string>, me: nat, before: seq<Action>, during: seq<Action>): seq<Action>
  {
    before + [Spawn(me, e, image, supported)] + during
  }

  /** A first load that succeeds, of an image whose layers all compile, that was flagged or saved a layer. */
  ghost predicate Warms(
    c: Compiler, e: Engine, image: Digest, supported: set<string>, me: nat, before: seq<Action>, during: seq<Action>)
    requires image.blob.Manifest?
  {
    var w, w' := Exec(c, INIT, before), Exec(c, INIT, FirstLoad(e, image, supported, me, before, during));
    var configs := WasmLayers(image.blob.layers, supported);
    && image in w.images && image in w.store && me !in w.clients
    && configs != [] && (forall i :: 0 <= i < |configs| ==> c(e, configs[i].digest.blob).Code?)
    && me in w'.clients && Succeeded(w'.clients[me])
    && (|| ImageWarm(w, e, image)
        || exists j :: 0 <= j < |configs| && j < |w'.clients[me].compiled| && w'.clients[me].compiled[j].Some?)
  }

  lemma {:induction false} ExecAppend(c: Compiler, w: World, xs: seq<Action>, ys: seq<Action>)
    ensures Exec(c, w, xs + ys) == Exec(c, Exec(c, w, xs), ys)
  {
    if ys == [] {
      assert xs + ys == xs;
    } else {
      var n := |ys| - 1;
      assert (xs + ys)[..|xs + ys| - 1] == xs + ys[..n];
      ExecAppend(c, w, xs, ys[..n]);
    }
  }

  lemma FirstLoadWarms(
    c: Compiler, e: Engine, image: Digest, supported: set<string>, me: nat, before: seq<Action>, during: seq<Action>)
    requires PlainLayers(image, supported) && Warms(c, e, image, supported, me, before, during)
    requires OwnOutput(c) && OnlyEngine(e, before) && OnlyEngine(e, during)
    requires forall i :: 0 <= i < |during| ==> Gentle(c, e, image, during[i])
    ensures var w' := Exec(c, INIT, FirstLoad(e, image, supported, me, before, during));
            && Running(c, e, image, w') && Warm(w', e, image, WasmLayers(image.blob.layers, supported))
            && w'.clients[me].configs == WasmLayers(image.blob.layers, supported) && w'.clients[me].engine == e
  {
    var configs := WasmLayers(image.blob.layers, supported);
    var w0 := Exec(c, INIT, before);
    ReachableWorldsRun(c, e, image, before);
    var a := Spawn(me, e, image, supported);
    StepKeepsWarm(c, e, image, w0, a);
    ExecSnoc(c, INIT, before, a);
    var w := Do(c, w0, a);
    SpawnBegins(c, e, image, supported, w0, me);
    ExecAppend(c, INIT, before + [a], during);
    RunStaysLoadRun(c, e, image, w, me, during);
    RunKeepsRunning(c, e, image, w, during);
    LoadWarmsExactly(c, e, image, w, me, during);
    var cl := Exec(c, w, during).clients[me];
    if j :| 0 <= j < |configs| && j < |cl.compiled| && cl.compiled[j].Some? {
      SavingFlags(c, e, image, w, me, during, j);
    }
  }

  /**
   The promise of the cache, for runs from the empty store: after a load that left the image warm,
   with anything gentle in between, a later load with the same engine, image and media types never
   compiles, takes no lease and writes nothing in any continuation of the run, is done after 2n + 1 of
   its requests, and returns the modules the first load returned.
   */
  lemma LaterLoadsOnlyRead(
    c: Compiler, e: Engine, image: Digest, supported: set<string>, me: nat, before: seq<Action>, during: seq<Action>,
    between: seq<Action>, you: nat, after: seq<Action>)
    requires PlainLayers(image, supported) && Warms(c, e, image, supported, me, before, during)
    requires OwnOutput(c) && OnlyEngine(e, before) && OnlyEngine(e, during) && OnlyEngine(e, between) && OnlyEngine(e, after)
    requires forall i :: 0 <= i < |during| ==> Gentle(c, e, image, during[i])
    requires forall i :: 0 <= i < |between| ==> Gentle(c, e, image, between[i])
    requires GentleServed(c, e, image, you, after)
    requires you !in Exec(c, INIT, FirstLoad(e, image, supported, me, before, during) + between).clients
    ensures var first := Exec(c, INIT, FirstLoad(e, image, supported, me, before, during));
            var w := Exec(c, INIT, FirstLoad(e, image, supported, me, before, during) + between +
                                   [Spawn(you, e, image, supported)] + after);
            && you in w.clients && WarmReader(w.clients[you])
            && (forall fate :: ClientTurn(c, w, you, fate).store == w.store && ClientTurn(c, w, you, fate).leases == w.leases)
            && (OwnTurns(you, after) >= 2 * |w.clients[you].configs| + 1 ==> w.clients[you].pc.Finished?)
            && (w.clients[you].pc.Finished? ==> w.clients[you].pc.result.layers == first.clients[me].pc.result.layers)
  {
    var load, a := FirstLoad(e, image, supported, me, before, during), Spawn(you, e, image, supported);
    var first := Exec(c, INIT, load);
    FirstLoadWarms(c, e, image, supported, me, before, during);
    ExecAppend(c, INIT, load, between);
    RunKeepsRunning(c, e, image, first, between);
    var w1 := Exec(c, INIT, load + between);
    StepKeepsWarm(c, e, image, w1, a);
    SpawnBegins(c, e, image, supported, w1, you);
    ExecSnoc(c, INIT, load + between, a);
    var w2 := Do(c, w1, a);
    WarmAfter(e, image, WasmLayers(image.blob.layers, supported), first, w1, w2);
    ExecAppend(c, INIT, load + between + [a], after);
    WarmLoadsOnlyRead(c, e, image, w2, you, after);
    WarmRunLasts(c, e, image, w2, you, after);
    SameLayers(c, first.clients[me], Exec(c, w2, after).clients[you]);
  }

  lemma WarmAfter(e: Engine, image: Digest, configs: seq<Descriptor>, w: World, w1: World, w2: World)
    requires StaysWarm(e, image, w, w1) && StaysWarm(e, image, w1, w2) && Warm(w, e, image, configs)
    requires forall i :: 0 <= i < |configs| ==> PartOf(image, configs[i])
    ensures Warm(w2, e, image, configs)
  {
  }

  /** Two successful loads of the same layers with the same engine return the same modules. */
  lemma SameLayers(c: Compiler, x: Client, y: Client)
    requires ClientInv(c, x) && ClientInv(c, y) && x.engine == y.engine && x.configs == y.configs && Succeeded(x)
    ensures Succeeded(y) ==> x.pc.result.layers == y.pc.result.layers
  {
  }
}
