/** When a load that runs alone leaves the cache warm, told from the store it starts with. */
module LoneLoads {
  import opened Options
  import opened Content
  import opened PrecompileCache
  import opened CacheCoherence
  import opened CacheRetention
  import opened CacheWarmth
  import opened LoadOutcome
  import opened WarmLoads

  /** Only client `me` and the collector act, and all requests are served. */
  predicate Lone(me: nat, a: Action) {
    a == Turn(me, Served) || a.Gc?
  }

  ghost predicate LoneRun(me: nat, actions: seq<Action>) {
    forall n :: 0 <= n < |actions| ==> Lone(me, actions[n])
  }

  lemma LoneIsGentle(c: Compiler, e: Engine, image: Digest, me: nat, actions: seq<Action>)
    requires LoneRun(me, actions)
    ensures OnlyEngine(e, actions) && GentleServed(c, e, image, me, actions)
    ensures forall n :: 0 <= n < |actions| ==> Gentle(c, e, image, actions[n])
  {
  }

  /** Layer `i` was not warm: the client finds it cold, reads the original and compiles it. */
  ghost predicate FoundCold(c: Compiler, e: Engine, w: World, cl: Client, i: nat) {
    && i < |cl.configs|
    && (Reading(cl.pc) && i >= |cl.layers| ==> !LayerWarm(w, e, cl.configs[i]))
    && (i < |cl.layers| ==> cl.layers[i].data == cl.configs[i].digest.blob)
    && (cl.pc.ReadCached? && i == |cl.layers| ==> cl.pc.cached !in w.store)
    && (Succeeded(cl) ==> i < |cl.compiled| && cl.compiled[i].Some?)
  }

  lemma PushCold(c: Compiler, e: Engine, w: World, cl: Client, data: Blob, i: nat)
    requires OwnOutput(c) && ClientInv(c, cl) && FoundCold(c, e, w, cl, i) && cl.engine == e
    requires |cl.layers| < |cl.configs| && (cl.pc.ReadCached? || cl.pc.ReadOriginal?)
    requires var original := cl.configs[|cl.layers|].digest.blob;
             || (cl.needsPrecompile && data == original)
             || (i != |cl.layers| && IsCode(c, e, original, data))
    ensures FoundCold(c, e, w, PushLayer(cl, data), i)
  {
    if i < |cl.layers| && IsCode(c, e, cl.configs[i].digest.blob, cl.layers[i].data) {
      CodeDiffers(c, e, cl.configs[i].digest.blob, cl.layers[i].data);
    }
  }

  lemma FinishCold(c: Compiler, e: Engine, w: World, cl: Client, i: nat)
    requires OwnOutput(c) && ClientInv(c, cl) && FoundCold(c, e, w, cl, i) && cl.engine == e
    requires cl.pc.NextLayer? && c(e, cl.configs[i].digest.blob).Code?
    ensures cl.compiled[i].Some?
  {
    CompiledLayer(c, cl, i);
  }

  lemma NextCold(c: Compiler, e: Engine, w: World, cl: Client, i: nat)
    requires FoundCold(c, e, w, cl, i) && cl.engine == e
    requires !cl.pc.ReadCached? && !cl.pc.ReadOriginal? && !cl.pc.NextLayer?
    ensures FoundCold(c, e, w, Continue(c, w, cl, true), i)
  {
  }

  lemma TurnCold(c: Compiler, e: Engine, w: World, cl: Client, i: nat)
    requires OwnOutput(c) && StoreInv(c, w.store) && ClientInv(c, cl) && cl.engine == e
    requires FoundCold(c, e, w, cl, i) && c(e, cl.configs[i].digest.blob).Code?
    ensures FoundCold(c, e, w, Continue(c, w, cl, true), i)
  {
    if cl.pc.ReadCached? {
      if cl.pc.cached in w.store { PushCold(c, e, w, cl, w.store[cl.pc.cached].data, i); }
    } else if cl.pc.ReadOriginal? {
      var d := cl.configs[|cl.layers|].digest;
      if d in w.store { PushCold(c, e, w, cl, w.store[d].data, i); }
    } else if cl.pc.NextLayer? {
      FinishCold(c, e, w, cl, i);
    } else {
      NextCold(c, e, w, cl, i);
    }
  }

  /** Reading changes no store, and a collection only takes away. */
  lemma ColdStays(c: Compiler, e: Engine, w: World, w': World, cl: Client, i: nat)
    requires FoundCold(c, e, w, cl, i)
    requires forall d :: d in w'.store ==> d in w.store && w'.store[d] == w.store[d]
    ensures FoundCold(c, e, w', cl, i)
  {
  }

  lemma ReadingWritesNothing(c: Compiler, w: World, me: nat, fate: Fate)
    requires me in w.clients && Reading(Continue(c, w, w.clients[me], fate.Served?).pc)
    ensures ClientTurn(c, w, me, fate).store == w.store
  {
    NextPlace(c, w, w.clients[me], fate.Served?);
  }

  ghost predicate ColdRun(c: Compiler, e: Engine, image: Digest, w: World, me: nat, i: nat) {
    && Running(c, e, image, w) && me in w.clients && Loads(e, image, w.clients[me])
    && FoundCold(c, e, w, w.clients[me], i) && c(e, w.clients[me].configs[i].digest.blob).Code?
  }

  /** Once a client has read its layers, what the store holds does not matter for what it compiles. */
  lemma ColdAnywhere(c: Compiler, e: Engine, w: World, w': World, cl: Client, i: nat)
    requires FoundCold(c, e, w, cl, i) && !Reading(cl.pc)
    ensures FoundCold(c, e, w', cl, i)
  {
  }

  lemma ColdStep(c: Compiler, e: Engine, image: Digest, w: World, me: nat, a: Action, i: nat)
    requires ColdRun(c, e, image, w, me, i) && Lone(me, a)
    ensures ColdRun(c, e, image, Do(c, w, a), me, i)
  {
    StepKeepsWarm(c, e, image, w, a);
    ClientAfter(c, w, a, me);
    if a.Turn? {
      var next := Continue(c, w, w.clients[me], true);
      TurnCold(c, e, w, w.clients[me], i);
      if Reading(next.pc) {
        ReadingWritesNothing(c, w, me, Served);
        ColdStays(c, e, w, Do(c, w, a), next, i);
      } else {
        ColdAnywhere(c, e, w, Do(c, w, a), next, i);
      }
    } else {
      ColdStays(c, e, w, Do(c, w, a), w.clients[me], i);
    }
  }

  lemma {:induction false} ColdLasts(c: Compiler, e: Engine, image: Digest, w: World, me: nat, actions: seq<Action>, i: nat)
    requires ColdRun(c, e, image, w, me, i) && LoneRun(me, actions)
    ensures ColdRun(c, e, image, Exec(c, w, actions), me, i)
  {
    if actions != [] {
      var n := |actions| - 1;
      ColdLasts(c, e, image, w, me, actions[..n], i);
      ColdStep(c, e, image, Exec(c, w, actions[..n]), me, actions[n], i);
    }
  }

  /** A lone load of an image whose layers are all warm saves nothing, so it does not set the flag. */
  lemma WarmLayersSetNoFlag(c: Compiler, e: Engine, image: Digest, w: World, me: nat, actions: seq<Action>)
    requires Running(c, e, image, w) && LoneRun(me, actions)
    requires me in w.clients && Begins(e, image, w.clients[me])
    requires forall i :: 0 <= i < |w.clients[me].configs| ==> LayerWarm(w, e, w.clients[me].configs[i])
    ensures !Ever(c, w, actions, FlagsOf(image))
  {
    forall n | 0 <= n < |actions| ensures !Flags(Exec(c, w, actions[..n]), image, actions[n]) {
      LoneIsGentle(c, e, image, me, actions[..n]);
      RunStaysSaved(c, e, image, w, me, actions[..n]);
      RunKeepsConfigs(c, w, me, actions[..n]);
      var cl := Exec(c, w, actions[..n]).clients[me];
      if Saving(cl.pc) {
        WarmLayersAreNotRecompiled(c, e, image, w, me, actions[..n], |cl.out|);
        assert false;
      }
    }
  }

  lemma {:induction false} RunKeepsConfigs(c: Compiler, w: World, me: nat, actions: seq<Action>)
    requires me in w.clients
    ensures me in Exec(c, w, actions).clients && Exec(c, w, actions).clients[me].configs == w.clients[me].configs
  {
    if actions != [] {
      var n := |actions| - 1;
      RunKeepsConfigs(c, w, me, actions[..n]);
      ClientAfter(c, Exec(c, w, actions[..n]), actions[n], me);
    }
  }

  /**
   A load that runs alone and succeeds leaves the cache warm exactly when the engine compiles every
   layer and, in the store it started with, the image was flagged or some layer was not warm.
   */
  lemma LoneLoadWarmsExactly(c: Compiler, e: Engine, image: Digest, w: World, me: nat, actions: seq<Action>)
    requires Running(c, e, image, w) && LoneRun(me, actions)
    requires me in w.clients && Begins(e, image, w.clients[me])
    requires var cl := Exec(c, w, actions).clients; me in cl && Succeeded(cl[me])
    ensures var configs := w.clients[me].configs;
            Warm(Exec(c, w, actions), e, image, configs) <==>
              && (forall i :: 0 <= i < |configs| ==> c(e, configs[i].digest.blob).Code?)
              && (ImageWarm(w, e, image) || exists i :: 0 <= i < |configs| && !LayerWarm(w, e, configs[i]))
  {
    var configs := w.clients[me].configs;
    LoneIsGentle(c, e, image, me, actions);
    LoadWarmsExactly(c, e, image, w, me, actions);
    if forall i :: 0 <= i < |configs| ==> LayerWarm(w, e, configs[i]) {
      WarmLayersSetNoFlag(c, e, image, w, me, actions);
    } else if forall i :: 0 <= i < |configs| ==> c(e, configs[i].digest.blob).Code? {
      var i :| 0 <= i < |configs| && !LayerWarm(w, e, configs[i]);
      ColdLasts(c, e, image, w, me, actions, i);
      RunKeepsConfigs(c, w, me, actions);
      SavingFlags(c, e, image, w, me, actions, i);
      FlaggedExactly(c, e, image, w, actions);
    }
  }
}
