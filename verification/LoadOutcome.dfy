/**
 What a successful load leaves behind, exactly: which layers are warm afterwards, and when the image is
 flagged so that later loads need no compiler.
 */
module LoadOutcome {
  import opened Options
  import opened Content
  import opened PrecompileCache
  import opened CacheCoherence
  import opened CacheRetention
  import opened CacheWarmth

  /**
   What a client has read from the cache is warm, and the label it is about to follow is still there;
   when it is done every layer that compiles is warm.
   */
  ghost predicate Found(c: Compiler, w: World, e: Engine, cl: Client) {
    && (forall j :: 0 <= j < |cl.layers| && cl.layers[j].data != cl.configs[j].digest.blob ==>
          LayerWarm(w, e, cl.configs[j]))
    && (cl.pc.ReadCached? ==> Labelled(w, e, cl.configs[|cl.layers|], cl.pc.cached))
    && (cl.pc.Finished? && cl.pc.result.Loaded? && !cl.pc.result.compileFailed ==>
          forall i :: 0 <= i < |cl.configs| && c(e, cl.configs[i].digest.blob).Code? ==>
            LayerWarm(w, e, cl.configs[i]))
  }

  /** An engine never takes a blob for its own compilation. */
  lemma CodeDiffers(c: Compiler, e: Engine, original: Blob, code: Blob)
    requires OwnOutput(c) && IsCode(c, e, original, code)
    ensures original != code
  {
  }

  lemma PushFound(c: Compiler, w: World, e: Engine, cl: Client, data: Blob)
    requires OwnOutput(c) && ClientInv(c, cl) && Found(c, w, e, cl) && cl.engine == e
    requires |cl.layers| < |cl.configs| && !cl.pc.Finished?
    requires var config := cl.configs[|cl.layers|];
             || (IsCode(c, e, config.digest.blob, data) && LayerWarm(w, e, config))
             || (cl.needsPrecompile && data == config.digest.blob)
    ensures Found(c, w, e, PushLayer(cl, data))
  {
    var next := PushLayer(cl, data);
    PushKeeps(c, cl, data);
    if next.pc.Finished? {
      forall i | 0 <= i < |next.configs| ensures LayerWarm(w, e, next.configs[i]) {
        CodeDiffers(c, e, next.configs[i].digest.blob, next.layers[i].data);
      }
    }
  }

  lemma FinishFound(c: Compiler, w: World, e: Engine, cl: Client)
    requires OwnOutput(c) && ClientInv(c, cl) && Saved(w, e, cl) && Found(c, w, e, cl) && cl.engine == e
    requires cl.pc.NextLayer? && |cl.out| == |cl.configs|
    ensures forall i :: 0 <= i < |cl.configs| && c(e, cl.configs[i].digest.blob).Code? ==>
              LayerWarm(w, e, cl.configs[i])
  {
    forall i | 0 <= i < |cl.configs| && c(e, cl.configs[i].digest.blob).Code?
      ensures LayerWarm(w, e, cl.configs[i])
    {
      CompiledLayer(c, cl, i);
      if cl.compiled[i].None? {
        CodeDiffers(c, e, cl.configs[i].digest.blob, cl.layers[i].data);
      }
    }
  }

  /** Turns that neither read a layer nor end the load leave what was read alone. */
  lemma NextFound(c: Compiler, w: World, e: Engine, cl: Client, ok: bool)
    requires Found(c, w, e, cl) && cl.engine == e && !cl.pc.ReadCached? && !cl.pc.ReadOriginal? && !cl.pc.NextLayer?
    ensures Found(c, w, e, Continue(c, w, cl, ok))
  {
  }

  lemma OwnTurnFinds(c: Compiler, w: World, e: Engine, cl: Client, ok: bool)
    requires OwnOutput(c) && StoreInv(c, w.store) && ClientInv(c, cl) && cl.engine == e
    requires Saved(w, e, cl) && Found(c, w, e, cl)
    ensures Found(c, w, e, Continue(c, w, cl, ok))
  {
    if cl.pc.ReadCached? {
      if ok && cl.pc.cached in w.store { PushFound(c, w, e, cl, w.store[cl.pc.cached].data); }
    } else if cl.pc.ReadOriginal? {
      var d := cl.configs[|cl.layers|].digest;
      if ok && d in w.store { PushFound(c, w, e, cl, w.store[d].data); }
    } else if cl.pc.NextLayer? {
      if |cl.out| == |cl.configs| { FinishFound(c, w, e, cl); }
    } else {
      NextFound(c, w, e, cl, ok);
    }
  }

  lemma FoundStays(c: Compiler, e: Engine, image: Digest, w: World, w': World, cl: Client)
    requires StaysWarm(e, image, w, w') && Loads(e, image, cl) && Found(c, w, e, cl)
    ensures Found(c, w', e, cl)
  {
  }

  /** A client loads `image` with engine `e`, and what it read and saved so far is warm. */
  ghost predicate LoadRun(c: Compiler, e: Engine, image: Digest, w: World, me: nat) {
    && Running(c, e, image, w) && me in w.clients
    && Loads(e, image, w.clients[me]) && Saved(w, e, w.clients[me]) && Found(c, w, e, w.clients[me])
  }

  lemma StepStaysLoadRun(c: Compiler, e: Engine, image: Digest, w: World, me: nat, a: Action)
    requires LoadRun(c, e, image, w, me) && Gentle(c, e, image, a) && (a.Spawn? ==> a.engine == e)
    ensures LoadRun(c, e, image, Do(c, w, a), me)
    ensures Do(c, w, a).clients[me].configs == w.clients[me].configs
  {
    var cl := w.clients[me];
    StepStaysSaved(c, e, image, w, me, a);
    StepKeepsWarm(c, e, image, w, a);
    ClientAfter(c, w, a, me);
    if a.Turn? && a.me == me {
      assert ClientInv(c, cl);
      OwnTurnFinds(c, w, e, cl, a.fate.Served?);
      FoundStays(c, e, image, w, Do(c, w, a), Continue(c, w, cl, a.fate.Served?));
    } else {
      FoundStays(c, e, image, w, Do(c, w, a), cl);
    }
  }

  lemma {:induction false} RunStaysLoadRun(
    c: Compiler, e: Engine, image: Digest, w: World, me: nat, actions: seq<Action>)
    requires LoadRun(c, e, image, w, me) && OnlyEngine(e, actions)
    requires forall i :: 0 <= i < |actions| ==> Gentle(c, e, image, actions[i])
    ensures LoadRun(c, e, image, Exec(c, w, actions), me)
    ensures Exec(c, w, actions).clients[me].configs == w.clients[me].configs
  {
    if actions != [] {
      var n := |actions| - 1;
      RunStaysLoadRun(c, e, image, w, me, actions[..n]);
      StepStaysLoadRun(c, e, image, Exec(c, w, actions[..n]), me, actions[n]);
    }
  }

  /** A load that has just been asked for. */
  ghost predicate Begins(e: Engine, image: Digest, cl: Client) {
    Loads(e, image, cl) && cl.pc.CheckImage? && cl.compiled == []
  }

  ghost predicate Succeeded(cl: Client) {
    cl.pc.Finished? && cl.pc.result.Loaded? && !cl.pc.result.compileFailed
  }

  /**
   After every successful load, whatever other clients of the engine, the collector and lost messages
   did meanwhile and whatever was deleted before: a layer is warm exactly when the engine compiles it.
   */
  lemma LoadWarmsWhatCompiles(
    c: Compiler, e: Engine, image: Digest, w: World, me: nat, actions: seq<Action>, i: nat)
    requires Running(c, e, image, w) && OnlyEngine(e, actions)
    requires forall i :: 0 <= i < |actions| ==> Gentle(c, e, image, actions[i])
    requires me in w.clients && Begins(e, image, w.clients[me]) && i < |w.clients[me].configs|
    requires var cl := Exec(c, w, actions).clients; me in cl && Succeeded(cl[me])
    ensures LayerWarm(Exec(c, w, actions), e, w.clients[me].configs[i]) <==>
              c(e, w.clients[me].configs[i].digest.blob).Code?
  {
    RunStaysLoadRun(c, e, image, w, me, actions);
    var w', d := Exec(c, w, actions), w.clients[me].configs[i].digest;
    if d in w'.store { assert EntryInv(c, d, w'.store[d]); }
  }

  // ----- the flag on the image -----

  /** The action replaces the labels of the image, which sets the flag. */
  predicate Flags(w: World, image: Digest, a: Action) {
    a.Turn? && a.me in w.clients && TakesEffect(a.fate) && WritesLabels(w.clients[a.me], image)
  }

  lemma FlagStep(c: Compiler, e: Engine, image: Digest, w: World, a: Action)
    requires Running(c, e, image, w) && Gentle(c, e, image, a) && (a.Spawn? ==> a.engine == e)
    ensures ImageWarm(Do(c, w, a), e, image) <==> ImageWarm(w, e, image) || Flags(w, image, a)
    ensures Flags(w, image, a) && w.clients[a.me].pc.ImageUpdate? ==>
              Precompile(e) in Do(c, w, a).store[image].labels && Do(c, w, a).store[image].labels[Precompile(e)] == Text("true")
  {
    StepKeepsWarm(c, e, image, w, a);
    if a.Turn? && a.me in w.clients {
      assert HeldOk(c, e, w, w.clients[a.me]);
      EntryAfter(w, a.me, w.clients[a.me], image);
    }
  }

  lemma {:induction false} RunKeepsRunning(c: Compiler, e: Engine, image: Digest, w: World, actions: seq<Action>)
    requires Running(c, e, image, w) && OnlyEngine(e, actions)
    requires forall i :: 0 <= i < |actions| ==> Gentle(c, e, image, actions[i])
    ensures Running(c, e, image, Exec(c, w, actions))
    ensures StaysWarm(e, image, w, Exec(c, w, actions))
  {
    if actions != [] {
      var n := |actions| - 1;
      RunKeepsRunning(c, e, image, w, actions[..n]);
      StepKeepsWarm(c, e, image, Exec(c, w, actions[..n]), actions[n]);
    }
  }

  function FlagsOf(image: Digest): Happening {
    (w: World, a: Action) => Flags(w, image, a)
  }

  /** The image is flagged after a run exactly when it was before or some client saved a layer for it. */
  lemma {:induction false} FlaggedExactly(c: Compiler, e: Engine, image: Digest, w: World, actions: seq<Action>)
    requires Running(c, e, image, w) && OnlyEngine(e, actions)
    requires forall i :: 0 <= i < |actions| ==> Gentle(c, e, image, actions[i])
    ensures ImageWarm(Exec(c, w, actions), e, image) <==> ImageWarm(w, e, image) || Ever(c, w, actions, FlagsOf(image))
  {
    if actions != [] {
      var n := |actions| - 1;
      FlaggedExactly(c, e, image, w, actions[..n]);
      RunKeepsRunning(c, e, image, w, actions[..n]);
      FlagStep(c, e, image, Exec(c, w, actions[..n]), actions[n]);
      EverSnoc(c, w, actions[..n], actions[n], FlagsOf(image));
      assert actions == actions[..n] + [actions[n]];
    }
  }

  /** A load that saved a layer leaves the image flagged. */
  lemma SavingFlags(c: Compiler, e: Engine, image: Digest, w: World, me: nat, actions: seq<Action>, j: nat)
    requires Running(c, e, image, w) && OnlyEngine(e, actions)
    requires forall i :: 0 <= i < |actions| ==> Gentle(c, e, image, actions[i])
    requires me in w.clients && Begins(e, image, w.clients[me]) && j < |w.clients[me].configs|
    requires var cl := Exec(c, w, actions).clients;
             me in cl && Succeeded(cl[me]) && j < |cl[me].compiled| && cl[me].compiled[j].Some?
    ensures ImageWarm(Exec(c, w, actions), e, image)
  {
    RunStaysLoadRun(c, e, image, w, me, actions);
    assert Saved(Exec(c, w, actions), e, Exec(c, w, actions).clients[me]);
  }

  /**
   A successful load leaves the cache warm exactly when the engine compiles every layer and the image
   was flagged before or a layer was saved for it meanwhile.
   */
  lemma LoadWarmsExactly(c: Compiler, e: Engine, image: Digest, w: World, me: nat, actions: seq<Action>)
    requires Running(c, e, image, w) && OnlyEngine(e, actions)
    requires forall i :: 0 <= i < |actions| ==> Gentle(c, e, image, actions[i])
    requires me in w.clients && Begins(e, image, w.clients[me])
    requires var cl := Exec(c, w, actions).clients; me in cl && Succeeded(cl[me])
    ensures var w', configs := Exec(c, w, actions), w.clients[me].configs;
            Warm(w', e, image, configs) <==>
              && (forall i :: 0 <= i < |configs| ==> c(e, configs[i].digest.blob).Code?)
              && (ImageWarm(w, e, image) || Ever(c, w, actions, FlagsOf(image)))
  {
    FlaggedExactly(c, e, image, w, actions);
    AllLayersWarm(c, e, image, w, me, actions);
  }

  lemma AllLayersWarm(c: Compiler, e: Engine, image: Digest, w: World, me: nat, actions: seq<Action>)
    requires Running(c, e, image, w) && OnlyEngine(e, actions)
    requires forall i :: 0 <= i < |actions| ==> Gentle(c, e, image, actions[i])
    requires me in w.clients && Begins(e, image, w.clients[me])
    requires var cl := Exec(c, w, actions).clients; me in cl && Succeeded(cl[me])
    ensures var w', configs := Exec(c, w, actions), w.clients[me].configs;
            (forall i :: 0 <= i < |configs| ==> LayerWarm(w', e, configs[i])) <==>
            (forall i :: 0 <= i < |configs| ==> c(e, configs[i].digest.blob).Code?)
  {
    var w', configs := Exec(c, w, actions), w.clients[me].configs;
    forall i | 0 <= i < |configs| ensures LayerWarm(w', e, configs[i]) <==> c(e, configs[i].digest.blob).Code? {
      LoadWarmsWhatCompiles(c, e, image, w, me, actions, i);
    }
  }
}
