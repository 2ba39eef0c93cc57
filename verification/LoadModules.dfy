/**
 `Client::load_modules` as the code runs: a loop that reads, a compile call and a loop that saves.
 Before each of its requests any number of steps of other clients and of containerd may happen.
 The code is shown to take exactly the steps of one client of `PrecompileCache`.
 */
module LoadModules {
  import opened Options
  import opened Content
  import opened Uploads
  import opened PrecompileCache
  import opened CacheCoherence
  import opened LoadProgress

  /** What others do before the next request of this client, and what becomes of the request. */
  datatype Round = Round(others: seq<Action>, fate: Fate)

  predicate Mine(me: nat, a: Action) {
    (a.Spawn? || a.Turn? || a.Crash?) && a.me == me
  }

  /** What becomes of the n-th request of a schedule; beyond its end everything is served. */
  function FateAt(schedule: seq<Round>, n: nat): Fate {
    if n < |schedule| then schedule[n].fate else Served
  }

  function Rest(schedule: seq<Round>, n: nat): seq<Round> {
    if n <= |schedule| then schedule[n..] else []
  }

  /** The world after others have acted; what is not theirs to do is skipped. */
  function Others(c: Compiler, me: nat, w: World, actions: seq<Action>): World {
    if actions == [] then w
    else
      var before, a := Others(c, me, w, actions[..|actions| - 1]), actions[|actions| - 1];
      if Mine(me, a) then before else Do(c, before, a)
  }

  /** The world before the n-th request of a client that only reads, and the one that request meets. */
  function Before(c: Compiler, me: nat, w: World, schedule: seq<Round>, n: nat): World
    decreases n, 0
  {
    if n == 0 then w else Met(c, me, w, schedule, n - 1)
  }

  function Met(c: Compiler, me: nat, w: World, schedule: seq<Round>, n: nat): World
    decreases n, 1
  {
    var before := Before(c, me, w, schedule, n);
    if n < |schedule| then Others(c, me, before, schedule[n].others) else before
  }

  /** The n-th request is served and finds `d`. */
  predicate Reads(c: Compiler, me: nat, w: World, schedule: seq<Round>, n: nat, d: Digest) {
    FateAt(schedule, n).Served? && d in Met(c, me, w, schedule, n).store
  }

  /** One of the layers cannot be read; the first of them is the n-th read. */
  predicate SomeUnread(c: Compiler, me: nat, w: World, schedule: seq<Round>, n: nat, configs: seq<Descriptor>) {
    exists i :: 0 <= i < |configs| && !Reads(c, me, w, schedule, n + i, configs[i].digest)
  }

  ghost predicate AllServed(schedule: seq<Round>) {
    forall i :: 0 <= i < |schedule| ==> schedule[i].fate.Served?
  }

  class Session {
    const compiler: Compiler
    const me: nat
    var world: World
    var schedule: seq<Round>
    ghost var run: seq<Action>
    ghost const plan: seq<Round>   // the schedule the session began with
    ghost const first: nat         // the number of actions before the session

    /**
     The world is the result of a run from the empty store, and on a schedule on which everything is
     served so were all requests of this client.
     */
    ghost predicate Valid()
      reads this
    {
      && world == Exec(compiler, INIT, run)
      && (AllServed(plan) ==> AllServed(schedule) && OwnServed())
    }

    ghost predicate OwnServed()
      reads this
    {
      forall i :: first <= i < |run| && Own(me, run[i]) ==> run[i].Turn? && run[i].fate.Served?
    }

    ghost predicate At(cl: Client)
      reads this
    {
      Valid() && me in world.clients && world.clients[me] == cl
    }

    constructor (compiler: Compiler, me: nat, run: seq<Action>, schedule: seq<Round>)
      ensures Valid() && this.compiler == compiler && this.me == me
      ensures world == Exec(compiler, INIT, run) && this.schedule == schedule
      ensures this.run == run && plan == schedule && first == |run|
    {
      this.compiler, this.me, this.schedule, this.run := compiler, me, schedule, run;
      plan, first := schedule, |run|;
      world := Exec(compiler, INIT, run);
    }

    method Act(a: Action)
      requires Valid() && (Own(me, a) && AllServed(plan) ==> a.Turn? && a.fate.Served?)
      modifies this`world, this`run
      ensures Valid() && world == Do(compiler, old(world), a)
    {
      ExecSnoc(compiler, INIT, run, a);
      world := Do(compiler, world, a);
      run := run + [a];
    }

    /** Everybody else moves; this client's own state stays. */
    method LetOthersAct(others: seq<Action>)
      requires Valid()
      modifies this`world, this`run
      ensures Valid() && world == Others(compiler, me, old(world), others)
      ensures me in world.clients <==> me in old(world.clients)
      ensures me in world.clients ==> world.clients[me] == old(world.clients[me])
    {
      for i := 0 to |others|
        invariant Valid() && world == Others(compiler, me, old(world), others[..i])
        invariant me in world.clients <==> me in old(world.clients)
        invariant me in world.clients ==> world.clients[me] == old(world.clients[me])
      {
        assert others[..i + 1][..i] == others[..i];
        if !Mine(me, others[i]) {
          if me in world.clients { ClientAfter(compiler, world, others[i], me); }
          Act(others[i]);
        }
      }
      assert others[..|others|] == others;
    }

    /** Everybody else moves as the schedule says. */
    method Interfere() returns (fate: Fate)
      requires Valid()
      modifies this
      ensures Valid()
      ensures fate == FateAt(old(schedule), 0) && schedule == Rest(old(schedule), 1)
      ensures world == Met(compiler, me, old(world), old(schedule), 0)
      ensures me in world.clients <==> me in old(world.clients)
      ensures me in world.clients ==> world.clients[me] == old(world.clients[me])
    {
      fate := Served;
      if schedule != [] {
        var round := schedule[0];
        schedule := schedule[1..];
        LetOthersAct(round.others);
        fate := round.fate;
      }
    }

    /** One request of this client: `seen` is the world it met, `ok` whether a reply came back. */
    method Request(ghost cl: Client) returns (ok: bool, seen: World)
      requires At(cl)
      modifies this
      ensures At(Continue(compiler, seen, cl, ok))
      ensures ok <==> FateAt(old(schedule), 0).Served?
      ensures seen == Met(compiler, me, old(world), old(schedule), 0)
    {
      var fate := Interfere();
      seen := world;
      Act(Turn(me, fate));
      ok := fate.Served?;
    }

    /** A step of the code that sends nothing. */
    method Local(ghost cl: Client)
      requires At(cl)
      modifies this
      ensures At(Continue(compiler, old(world), cl, true))
    {
      Act(Turn(me, Served));
    }

    /** `get_info`: the labels of existing content. */
    method GetInfo(ghost cl: Client, d: Digest) returns (labels: Option<Labels>, ghost ok: bool, ghost seen: World)
      requires At(cl)
      modifies this
      ensures At(Continue(compiler, seen, cl, ok))
      ensures labels == if ok && d in seen.store then Some(seen.store[d].labels) else None
    {
      var answered, met := Request(cl);
      ok, seen := answered, met;
      labels := if answered && d in met.store then Some(met.store[d].labels) else None;
    }

    /** `read_content`: the bytes of existing content. */
    method ReadContent(ghost cl: Client, d: Digest) returns (data: Option<Blob>, ghost ok: bool, ghost seen: World)
      requires At(cl)
      modifies this
      ensures At(Continue(compiler, seen, cl, ok))
      ensures data == if ok && d in seen.store then Some(seen.store[d].data) else None
    {
      var answered, met := Request(cl);
      ok, seen := answered, met;
      data := if answered && d in met.store then Some(met.store[d].data) else None;
    }

    /** `update_info`: replace the labels of existing content by what the code computed. */
    method UpdateInfo(ghost cl: Client, d: Digest, labels: Labels) returns (done: bool, ghost ok: bool, ghost seen: World)
      requires At(cl)
      requires || (cl.pc.LayerUpdate? && d == cl.configs[|cl.out|].digest && labels == LayerLabels(cl, cl.pc.snapshot))
               || (cl.pc.ImageUpdate? && d == cl.image && labels == ImageLabels(cl, cl.pc.snapshot))
      modifies this
      ensures At(Continue(compiler, seen, cl, ok))
      ensures done == (ok && d in seen.store)
    {
      var answered, met := Request(cl);
      ok, seen := answered, met;
      done := answered && d in met.store;
    }

    /** `read_precompiled_layer`, with the fall back to `read_original_layer`. */
    method ReadLayer(ghost cl: Client, e: Engine, config: Descriptor) returns (layer: Option<Layer>, missed: bool)
      requires At(cl) && cl.pc.ReadInfo? && e == cl.engine && config == cl.configs[|cl.layers|]
      modifies this
      ensures layer.Some? ==>
                && layer.value.config == config
                && At(PushLayer(cl.(needsPrecompile := cl.needsPrecompile || missed), layer.value.data))
      ensures layer.None? ==> HasFailed()
    {
      ghost var now := cl;
      var info, ok, seen := GetInfo(now, config.digest);
      now := Continue(compiler, seen, now, ok);
      missed := true;
      if info.Some? && Precompile(e) in info.value && info.value[Precompile(e)].Ref? {
        var cached, ok, seen := ReadContent(now, info.value[Precompile(e)].digest);
        now := Continue(compiler, seen, now, ok);
        if cached.Some? {
          return Some(Layer(config, cached.value)), false;
        }
      }
      var original, ok', seen' := ReadContent(now, config.digest);
      layer := if original.Some? then Some(Layer(config, original.value)) else None;
    }

    /** Where the client is after reading `layers`. */
    ghost function AfterReads(cl: Client, needsPrecompile: bool, layers: seq<Layer>): (r: Client)
      requires cl.pc.ReadInfo? && |layers| <= |cl.configs|
    {
      if |layers| < |cl.configs| then
        cl.(needsPrecompile := needsPrecompile, layers := layers)
      else if needsPrecompile then
        cl.(needsPrecompile := needsPrecompile, layers := layers, pc := Compile, out := [])
      else
        cl.(needsPrecompile := needsPrecompile, layers := layers, pc := Finished(Loaded(layers, false)))
    }

    /** The read loop. */
    method ReadLayers(ghost cl: Client, e: Engine, configs: seq<Descriptor>, needs: bool)
      returns (layers: Option<seq<Layer>>, needsPrecompile: bool)
      requires At(cl) && cl.pc.ReadInfo? && e == cl.engine && configs == cl.configs
      requires cl.layers == [] && cl.out == [] && needs == cl.needsPrecompile
      modifies this
      ensures layers.Some? ==>
                |layers.value| == |configs| && At(AfterReads(cl, needsPrecompile, layers.value))
      ensures layers.None? ==> HasFailed()
    {
      needsPrecompile := needs;
      var read: seq<Layer> := [];
      while |read| < |configs|
        invariant |read| <= |configs|
        invariant At(AfterReads(cl, needsPrecompile, read))
        decreases |configs| - |read|
      {
        var layer, missed := ReadLayer(AfterReads(cl, needsPrecompile, read), e, configs[|read|]);
        if layer.None? {
          return None, needsPrecompile;
        }
        needsPrecompile := needsPrecompile || missed;
        read := read + [layer.value];
      }
      layers := Some(read);
    }

    /** Leaving the lease scope on an error drops the guard, which asks for the lease to be deleted. */
    method Drop()
      requires Valid() && me in world.clients && world.clients[me].pc.Dropping?
      modifies this
      ensures Valid() && me in world.clients && world.clients[me].pc == Finished(Failed)
    {
      var _, _ := Request(world.clients[me]);
    }

    ghost predicate HasFailed()
      reads this
    {
      Valid() && me in world.clients && world.clients[me].pc == Finished(Failed)
    }

    /** `save_content`: take the lease and write the blob; the chunk protocol is `ContentWrite`. */
    method SaveContent(ghost cl: Client, e: Engine, code: Bytes) returns (saved: bool)
      requires At(cl) && cl.pc.AcquireLease? && Current(cl) == Raw(code) && e == cl.engine
      modifies this
      ensures saved ==> At(cl.(pc := LayerInfo))
      ensures !saved ==> HasFailed()
    {
      var leased, seen := Request(cl);
      if !(leased && e !in seen.leases) { return false; }
      var ok, met := Request(cl.(pc := Commit));
      saved := ok && e in met.leases && (Sha256(Raw(code)) in met.store || Resumable(LeftOver(met, e), code));
      if !saved { Drop(); }
    }

    /** Label the original layer: the lookup label and a gc reference. */
    method LabelLayer(ghost cl: Client, e: Engine, config: Descriptor, i: nat, code: Bytes) returns (labelled: bool)
      requires At(cl) && cl.pc.LayerInfo? && Current(cl) == Raw(code)
      requires e == cl.engine && i == |cl.out| && config == cl.configs[i]
      modifies this
      ensures labelled ==> At(cl.(pc := ImageInfo))
      ensures !labelled ==> HasFailed()
    {
      var v := Ref(Sha256(Raw(code)));
      var info, _, _ := GetInfo(cl, config.digest);
      labelled := false;
      if info.Some? {
        var done, _, _ := UpdateInfo(cl.(pc := LayerUpdate(info.value)), config.digest,
                                     info.value[Precompile(e) := v][Slot(i) := v]);
        labelled := done;
      }
      if !labelled { Drop(); }
    }

    /** Label the image: a gc reference and the precompiled flag. */
    method LabelImage(ghost cl: Client, e: Engine, image: Digest, i: nat, code: Bytes) returns (labelled: bool)
      requires At(cl) && cl.pc.ImageInfo? && Current(cl) == Raw(code)
      requires e == cl.engine && i == |cl.out| && image == cl.image
      modifies this
      ensures labelled ==> At(cl.(pc := Release))
      ensures !labelled ==> HasFailed()
    {
      var v := Ref(Sha256(Raw(code)));
      var info, _, _ := GetInfo(cl, image);
      labelled := false;
      if info.Some? {
        var done, _, _ := UpdateInfo(cl.(pc := ImageUpdate(info.value)), image,
                                     info.value[Slot(i) := v][Precompile(e) := Text("true")]);
        labelled := done;
      }
      if !labelled { Drop(); }
    }

    /** Save one compiled layer and label layer and image, all under the lease. */
    method SaveLayer(ghost cl: Client, e: Engine, image: Digest, config: Descriptor, i: nat, code: Bytes)
      returns (saved: bool)
      requires At(cl) && cl.pc.AcquireLease? && Current(cl) == Raw(code)
      requires e == cl.engine && image == cl.image && i == |cl.out| && config == cl.configs[i]
      modifies this
      ensures saved ==> At(cl.(pc := NextLayer, out := cl.out + [Layer(config, Raw(code))]))
      ensures !saved ==> HasFailed()
    {
      saved := SaveContent(cl, e, code);
      if !saved { return; }
      saved := LabelLayer(cl.(pc := LayerInfo), e, config, i, code);
      if !saved { return; }
      saved := LabelImage(cl.(pc := ImageInfo), e, image, i, code);
      if !saved { return; }
      var _, _ := Request(cl.(pc := Release));
    }

    /** The compile call, the length check and the save loop. */
    method CompileAndSave(ghost cl: Client, e: Engine, image: Digest, configs: seq<Descriptor>, layers: seq<Layer>)
      returns (r: LoadResult)
      requires At(cl) && cl.pc.Compile?
      requires e == cl.engine && image == cl.image && configs == cl.configs && layers == cl.layers
      modifies this
      ensures Valid() && me in world.clients && world.clients[me].pc == Finished(r)
      ensures r.Loaded? ==> world.clients[me].engine == e && world.clients[me].configs == configs
    {
      var ok, seen := Request(cl);
      if !ok { return Loaded(layers, true); }
      var compiled := CompileAll(compiler, e, layers);
      if |compiled| != |layers| { return Failed; }
      var out: seq<Layer> := [];
      while |out| < |configs|
        invariant |out| <= |configs|
        invariant At(cl.(pc := NextLayer, compiled := compiled, out := out))
        decreases |configs| - |out|
      {
        var i := |out|;
        ghost var now := cl.(pc := NextLayer, compiled := compiled, out := out);
        Local(now);
        if compiled[i].None? {
          out := out + [layers[i]];
        } else {
          var saved := SaveLayer(now.(pc := AcquireLease), e, image, configs[i], i, compiled[i].value);
          if !saved { return Failed; }
          out := out + [Layer(configs[i], Raw(compiled[i].value))];
        }
      }
      Local(cl.(pc := NextLayer, compiled := compiled, out := out));
      r := Loaded(out, false);
    }

    /** The code of `load_modules` that uses a compiler, from the check of the image on. */
    method Follow(e: Engine, image: Digest, supported: set<string>) returns (r: LoadResult)
      requires Valid() && me !in world.clients && image.blob.Manifest?
      modifies this
      ensures Valid() && me in world.clients && world.clients[me].pc == Finished(r)
      ensures r.Loaded? ==>
                world.clients[me].engine == e && world.clients[me].configs == WasmLayers(image.blob.layers, supported)
    {
      var configs := WasmLayers(image.blob.layers, supported);
      Act(Spawn(me, e, image, supported));
      if configs == [] { return Loaded([], false); }
      ghost var cl := world.clients[me];
      var info, _, _ := GetInfo(cl, image);
      if info.None? { return Failed; }
      var needs := Precompile(e) !in info.value;
      cl := cl.(pc := ReadInfo, needsPrecompile := needs);
      var layers, needsPrecompile := ReadLayers(cl, e, configs, needs);
      if layers.None? { return Failed; }
      cl := AfterReads(cl, needsPrecompile, layers.value);
      if needsPrecompile {
        r := CompileAndSave(cl, e, image, configs, layers.value);
      } else {
        r := Loaded(layers.value, false);
      }
    }

    /**
     The part of `load_modules` that uses a compiler.  For every schedule of
     other clients, collections, deletions and lost messages: it fails exactly when one of its requests
     in the run does as `FailsOf` says, and when it succeeds it returns the original or compiled module
     of every supported layer in order, and unless the compile call erred exactly what an uncached load
     returns.
     */
    method Load(e: Engine, image: Digest, supported: set<string>) returns (r: LoadResult)
      requires Valid() && OwnOutput(compiler) && me !in world.clients && image.blob.Manifest?
      modifies this
      ensures Valid() && me in world.clients && world.clients[me].pc == Finished(r)
      ensures r.Failed? <==> Ever(compiler, INIT, run, FailsOf(compiler, me))
      ensures var configs := WasmLayers(image.blob.layers, supported);
              r.Loaded? ==>
                && Usable(compiler, e, configs, r.layers)
                && (!r.compileFailed ==> Exactly(compiler, e, configs, r.layers))
                && (r.compileFailed <==> Ever(compiler, INIT, run, CompileErrs(me)))
    {
      r := Follow(e, image, supported);
      Account();
      if r.Loaded? { CacheRefinesUncachedLoad(compiler, run, me); }
    }

    /** Why the load of this client has failed or fallen back. */
    lemma Account()
      requires Valid() && OwnOutput(compiler) && me in world.clients
      ensures Failing(world.clients[me].pc) <==> Ever(compiler, INIT, run, FailsOf(compiler, me))
      ensures FellBack(world.clients[me]) <==> Ever(compiler, INIT, run, CompileErrs(me))
    {
      LoadFailsExactly(compiler, run, me);
      CompileErrorReturnsTheLayers(compiler, run, me);
    }

    /** `read_content` before any caching state exists. */
    method Peek(d: Digest) returns (data: Option<Blob>)
      requires Valid() && OwnOutput(compiler) && me !in world.clients
      modifies this
      ensures Valid() && me !in world.clients
      ensures data == if Reads(compiler, me, old(world), old(schedule), 0, d) then Some(d.blob) else None
      ensures world == Met(compiler, me, old(world), old(schedule), 0) && schedule == Rest(old(schedule), 1)
    {
      var fate := Interfere();
      RunKeepsInv(compiler, INIT, run);
      data := if fate.Served? && d in world.store then Some(world.store[d].data) else None;
    }

    /** The session has sent `n` reads since it was in world `w` with schedule `s`. */
    ghost predicate Since(w: World, s: seq<Round>, n: nat)
      reads this
    {
      world == Before(compiler, me, w, s, n) && schedule == Rest(s, n)
    }

    /** The n-th read. */
    method PeekAt(ghost w: World, ghost s: seq<Round>, ghost n: nat, d: Digest) returns (data: Option<Blob>)
      requires Valid() && OwnOutput(compiler) && me !in world.clients && Since(w, s, n)
      modifies this
      ensures Valid() && me !in world.clients && Since(w, s, n + 1)
      ensures data == if Reads(compiler, me, w, s, n, d) then Some(d.blob) else None
    {
      data := Peek(d);
    }

    /** Without a compiler every supported layer is returned as it is; it fails exactly when one cannot be read. */
    method LoadOriginals(configs: seq<Descriptor>, ghost w: World, ghost s: seq<Round>, ghost n: nat)
      returns (r: LoadResult)
      requires Valid() && OwnOutput(compiler) && me !in world.clients && Since(w, s, n)
      modifies this
      ensures Valid()
      ensures r.Failed? <==> SomeUnread(compiler, me, w, s, n, configs)
      ensures r.Loaded? ==>
                && |r.layers| == |configs| && !r.compileFailed
                && forall i :: 0 <= i < |configs| ==> r.layers[i] == Layer(configs[i], configs[i].digest.blob)
    {
      var layers: seq<Layer> := [];
      for i := 0 to |configs|
        invariant Valid() && me !in world.clients && Since(w, s, n + i)
        invariant |layers| == i
        invariant forall j :: 0 <= j < i ==> Reads(compiler, me, w, s, n + j, configs[j].digest)
        invariant forall j :: 0 <= j < i ==> layers[j] == Layer(configs[j], configs[j].digest.blob)
      {
        var data := PeekAt(w, s, n + i, configs[i].digest);
        if data.None? { return Failed; }
        layers := layers + [Layer(configs[i], data.value)];
      }
      r := Loaded(layers, false);
    }

    /**
     `load_modules`: no modules unless the image platform is Wasm, then its supported layers.  It fails
     exactly when the manifest, the config or, without a compiler, a layer cannot be read, or with a
     compiler when the load fails as `FailsOf` says.
     */
    method LoadModules(image: Digest, isWasm: Blob -> bool, supported: set<string>, engine: Option<Engine>)
      returns (r: LoadResult)
      requires Valid() && OwnOutput(compiler) && me !in world.clients
      modifies this
      ensures Valid()
      ensures var w, s := old(world), old(schedule);
              r.Failed? <==>
                || !Reads(compiler, me, w, s, 0, image) || !image.blob.Manifest?
                || !Reads(compiler, me, w, s, 1, image.blob.config)
                || (isWasm(image.blob.config.blob) &&
                    var configs := WasmLayers(image.blob.layers, supported);
                    match engine
                    case None => SomeUnread(compiler, me, w, s, 2, configs)
                    case Some(_) => Ever(compiler, INIT, run, FailsOf(compiler, me)))
      ensures r.Loaded? && !isWasm(image.blob.config.blob) ==> r == Loaded([], false)
      ensures r.Loaded? && isWasm(image.blob.config.blob) ==>
                var configs := WasmLayers(image.blob.layers, supported);
                match engine
                case None =>
                  r.layers == seq(|configs|, i requires 0 <= i < |configs| => Layer(configs[i], configs[i].digest.blob))
                case Some(e) =>
                  && Usable(compiler, e, configs, r.layers)
                  && (!r.compileFailed ==> Exactly(compiler, e, configs, r.layers))
                  && (r.compileFailed <==> Ever(compiler, INIT, run, CompileErrs(me)))
    {
      ghost var w, s := world, schedule;
      assert Rest(s, 0) == s;
      var manifest := PeekAt(w, s, 0, image);
      if manifest.None? || !manifest.value.Manifest? { return Failed; }
      var config := PeekAt(w, s, 1, manifest.value.config);
      if config.None? { return Failed; }
      if !isWasm(config.value) { return Loaded([], false); }
      match engine {
        case None => r := LoadOriginals(WasmLayers(manifest.value.layers, supported), w, s, 2);
        case Some(e) => r := Load(e, image, supported);
      }
    }
  }
}
