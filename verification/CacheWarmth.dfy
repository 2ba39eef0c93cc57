/**
 What a load leaves behind under one engine key: steps keep layers and images warm, and what a load has
 saved so far is warm, whatever other clients and the collector do in between.
 */
module CacheWarmth {
  import opened Options
  import opened Content
  import opened PrecompileCache
  import opened CacheCoherence
  import opened CacheRetention

  /** The layer's lookup label names `v`. */
  ghost predicate Labelled(w: World, e: Engine, config: Descriptor, v: Digest) {
    && config.digest in w.store
    && Precompile(e) in w.store[config.digest].labels
    && w.store[config.digest].labels[Precompile(e)] == Ref(v)
  }

  /** The layer's lookup label names a blob that is there. */
  ghost predicate LayerWarm(w: World, e: Engine, config: Descriptor) {
    && config.digest in w.store
    && Precompile(e) in w.store[config.digest].labels
    && w.store[config.digest].labels[Precompile(e)].Ref?
    && w.store[config.digest].labels[Precompile(e)].digest in w.store
  }

  ghost predicate ImageWarm(w: World, e: Engine, image: Digest) {
    image in w.store && Precompile(e) in w.store[image].labels
  }

  /** A plain layer of an image that is registered with containerd. */
  ghost predicate PartOf(image: Digest, config: Descriptor) {
    image.blob.Manifest? && config in image.blob.layers && config.digest.blob.Raw?
  }

  /** The image, its layers and their compilations: what loads of the image live on. */
  ghost predicate Matters(c: Compiler, e: Engine, image: Digest, d: Digest) {
    d == image || exists x :: PartOf(image, x) && (d == x.digest || IsCode(c, e, x.digest.blob, d.blob))
  }

  /** Nobody removes the image or deletes by hand what matters for it. */
  ghost predicate Gentle(c: Compiler, e: Engine, image: Digest, a: Action) {
    a != Untag(image) && (a.Delete? ==> !Matters(c, e, image, a.digest))
  }

  ghost predicate Running(c: Compiler, e: Engine, image: Digest, w: World) {
    && OwnOutput(c) && Inv(c, w) && Retained(c, e, w)
    && image in w.images && image in w.store && image.blob.Manifest?
  }

  /** A collection keeps the layers of an image it keeps, which the image refers to. */
  lemma LayerStaysLive(c: Compiler, w: World, image: Digest, live: set<Digest>, config: Descriptor)
    requires image in w.store && image in live && Closed(w.store, live) && PartOf(image, config)
    requires SubLabels(BaseLabels(image), w.store[image].labels)
    ensures config.digest in live
  {
    var k :| 0 <= k < |image.blob.layers| && image.blob.layers[k] == config;
    assert Child(k) in BaseLabels(image) && BaseLabels(image)[Child(k)] == Ref(config.digest);
    assert w.store[image].labels[Child(k)] == Ref(config.digest);
  }

  lemma LiveLayerStaysWarm(w: World, e: Engine, live: set<Digest>, config: Descriptor)
    requires MayKeep(w, live) && config.digest in w.store && config.digest in live
    requires Referenced(e, w.store[config.digest].labels)
    ensures var w' := Collect(w, live);
            && config.digest in w'.store && w'.store[config.digest] == w.store[config.digest]
            && (LayerWarm(w, e, config) ==> LayerWarm(w', e, config))
  {
  }

  lemma GcKeepsLayer(c: Compiler, e: Engine, image: Digest, w: World, live: set<Digest>, config: Descriptor)
    requires Running(c, e, image, w) && MayKeep(w, live)
    requires PartOf(image, config) && config.digest in w.store
    ensures var w' := Collect(w, live);
            && config.digest in w'.store && w'.store[config.digest] == w.store[config.digest]
            && (LayerWarm(w, e, config) ==> LayerWarm(w', e, config))
  {
    assert EntryInv(c, image, w.store[image]);
    LayerStaysLive(c, w, image, live, config);
    assert EntryOk(c, e, w, config.digest);
    LiveLayerStaysWarm(w, e, live, config);
  }

  lemma TurnKeepsLayer(c: Compiler, e: Engine, w: World, me: nat, fate: Fate, config: Descriptor)
    requires OwnOutput(c) && Inv(c, w) && Retained(c, e, w) && me in w.clients
    requires config.digest.blob.Raw? && config.digest in w.store
    ensures var w' := ClientTurn(c, w, me, fate);
            && config.digest in w'.store
            && SubLabels(w.store[config.digest].labels, w'.store[config.digest].labels)
            && (LayerWarm(w, e, config) ==> LayerWarm(w', e, config))
  {
    TurnKeepsLabels(c, e, w, me, config.digest);
    WritesNeedTheLease(w, me, w.clients[me]);
  }

  /** Steps keep layers and images warm once they are. */
  ghost predicate StaysWarm(e: Engine, image: Digest, w: World, w': World) {
    && (ImageWarm(w, e, image) ==> ImageWarm(w', e, image))
    && (forall config :: PartOf(image, config) && LayerWarm(w, e, config) ==> LayerWarm(w', e, config))
    && (forall config, v :: PartOf(image, config) && Labelled(w, e, config, v) ==> Labelled(w', e, config, v))
  }

  lemma TurnStaysWarm(c: Compiler, e: Engine, image: Digest, w: World, me: nat, fate: Fate)
    requires Running(c, e, image, w) && me in w.clients
    ensures StaysWarm(e, image, w, ClientTurn(c, w, me, fate)) && image in ClientTurn(c, w, me, fate).store
  {
    var w' := ClientTurn(c, w, me, fate);
    TurnKeepsLabels(c, e, w, me, image);
    forall config | PartOf(image, config) && LayerWarm(w, e, config) ensures LayerWarm(w', e, config) {
      TurnKeepsLayer(c, e, w, me, fate, config);
    }
    forall config, v | PartOf(image, config) && Labelled(w, e, config, v) ensures Labelled(w', e, config, v) {
      TurnKeepsLayer(c, e, w, me, fate, config);
    }
  }

  lemma GcStaysWarm(c: Compiler, e: Engine, image: Digest, w: World, live: set<Digest>)
    requires Running(c, e, image, w)
    ensures StaysWarm(e, image, w, Do(c, w, Gc(live))) && image in Do(c, w, Gc(live)).store
  {
    var w' := Do(c, w, Gc(live));
    forall config | PartOf(image, config) && LayerWarm(w, e, config) ensures LayerWarm(w', e, config) {
      if MayKeep(w, live) { GcKeepsLayer(c, e, image, w, live, config); }
    }
    forall config, v | PartOf(image, config) && Labelled(w, e, config, v) ensures Labelled(w', e, config, v) {
      if MayKeep(w, live) { GcKeepsLayer(c, e, image, w, live, config); }
    }
  }

  lemma DeleteKeepsLayer(c: Compiler, e: Engine, image: Digest, w: World, d: Digest, config: Descriptor)
    requires !Matters(c, e, image, d) && PartOf(image, config)
    requires config.digest in w.store && Coherent(c, config.digest, w.store[config.digest].labels)
    ensures config.digest != d
    ensures LayerWarm(w, e, config) ==> LayerWarm(w.(store := w.store - {d}, deleted := w.deleted + {d}), e, config)
  {
  }

  /** A deletion by hand of something that does not matter. */
  lemma DeleteStaysWarm(c: Compiler, e: Engine, image: Digest, w: World, d: Digest)
    requires StoreInv(c, w.store) && image in w.store && !Matters(c, e, image, d)
    ensures StaysWarm(e, image, w, Do(c, w, Delete(d))) && image in Do(c, w, Delete(d)).store
  {
    var w' := w.(store := w.store - {d}, deleted := w.deleted + {d});
    assert w' == Do(c, w, Delete(d));
    forall config | PartOf(image, config) && LayerWarm(w, e, config) ensures LayerWarm(w', e, config) {
      assert EntryInv(c, config.digest, w.store[config.digest]);
      DeleteKeepsLayer(c, e, image, w, d, config);
    }
    forall config, v | PartOf(image, config) && Labelled(w, e, config, v) ensures Labelled(w', e, config, v) {
      assert EntryInv(c, config.digest, w.store[config.digest]);
      DeleteKeepsLayer(c, e, image, w, d, config);
    }
  }

  lemma OtherStaysWarm(c: Compiler, e: Engine, image: Digest, w: World, a: Action)
    requires !a.Turn? && !a.Gc? && !a.Delete? && image in w.store
    ensures StaysWarm(e, image, w, Do(c, w, a)) && image in Do(c, w, a).store
  {
  }

  lemma StepKeepsWarm(c: Compiler, e: Engine, image: Digest, w: World, a: Action)
    requires Running(c, e, image, w) && Gentle(c, e, image, a) && (a.Spawn? ==> a.engine == e)
    ensures Running(c, e, image, Do(c, w, a))
    ensures StaysWarm(e, image, w, Do(c, w, a))
  {
    DoKeepsInv(c, w, a);
    DoKeepsRetained(c, e, w, a);
    ActionStaysWarm(c, e, image, w, a);
    ImageStays(c, w, a, image);
  }

  lemma ImageStays(c: Compiler, w: World, a: Action, image: Digest)
    requires image in w.images && a != Untag(image)
    ensures image in Do(c, w, a).images
  {
  }

  lemma ActionStaysWarm(c: Compiler, e: Engine, image: Digest, w: World, a: Action)
    requires Running(c, e, image, w) && Gentle(c, e, image, a)
    ensures StaysWarm(e, image, w, Do(c, w, a)) && image in Do(c, w, a).store
  {
    match a
    case Turn(me, fate) => if me in w.clients { TurnStaysWarm(c, e, image, w, me, fate); }
    case Gc(live) => GcStaysWarm(c, e, image, w, live);
    case Delete(d) => DeleteStaysWarm(c, e, image, w, d);
    case _ => OtherStaysWarm(c, e, image, w, a);
  }

  /** The layers of a client's image that it loads are plain layers of that image. */
  ghost predicate Loads(e: Engine, image: Digest, cl: Client) {
    && cl.engine == e && cl.image == image
    && forall i :: 0 <= i < |cl.configs| ==> PartOf(image, cl.configs[i])
  }

  // ----- what a load has saved -----

  predicate Reading(pc: Pc) {
    pc.CheckImage? || pc.ReadInfo? || pc.ReadCached? || pc.ReadOriginal? || pc.Compile?
  }

  /** The image's gc slot keeps the blob the client has just saved. */
  ghost predicate ImageRefers(w: World, cl: Client)
    requires Saving(cl.pc)
  {
    && cl.image in w.store
    && Slot(|cl.out|) in w.store[cl.image].labels
    && w.store[cl.image].labels[Slot(|cl.out|)] == Ref(Sha256(Current(cl)))
  }

  /** What a client has saved so far is warm, and the blob it is saving is there. */
  ghost predicate Saved(w: World, e: Engine, cl: Client) {
    && (PastCommit(cl.pc) ==> Sha256(Current(cl)) in w.store)
    && (Reading(cl.pc) ==> cl.compiled == [])
    && (forall j :: 0 <= j < |cl.out| && j < |cl.compiled| && cl.compiled[j].Some? ==>
          LayerWarm(w, e, cl.configs[j]) && ImageWarm(w, e, cl.image))
    && (cl.pc.ImageInfo? || cl.pc.ImageUpdate? || cl.pc.Release? ==> LayerWarm(w, e, cl.configs[|cl.out|]))
    && (cl.pc.Release? ==> ImageWarm(w, e, cl.image) && ImageRefers(w, cl))
    && (cl.pc.Finished? && cl.pc.result.Loaded? && cl.compiled != [] ==> |cl.out| == |cl.configs|)
  }

  lemma LayerUpdateWarms(c: Compiler, w: World, me: nat, cl: Client)
    requires cl.pc.LayerUpdate? && Sha256(Current(cl)) in w.store && cl.configs[|cl.out|].digest in w.store
    ensures LayerWarm(Effect(w, me, cl), cl.engine, cl.configs[|cl.out|])
  {
    EntryAfter(w, me, cl, cl.configs[|cl.out|].digest);
    WritesNeedTheLease(w, me, cl);
  }

  lemma ImageUpdateWarms(w: World, me: nat, cl: Client)
    requires cl.pc.ImageUpdate? && cl.image in w.store
    ensures ImageWarm(Effect(w, me, cl), cl.engine, cl.image) && ImageRefers(Effect(w, me, cl), cl)
  {
    EntryAfter(w, me, cl, cl.image);
  }

  /** How the output of a load grows in one turn. */
  lemma NextOutput(c: Compiler, w: World, cl: Client, ok: bool)
    ensures var next := Continue(c, w, cl, ok);
            && (next.compiled == cl.compiled || (cl.pc.Compile? && cl.out == next.out == []))
            && (|| next.out == cl.out || next.out == []
                || (&& cl.pc.Release? && |next.out| == |cl.out| + 1)
                || (&& cl.pc.NextLayer? && |cl.out| < |cl.configs| && cl.compiled[|cl.out|].None?
                    && |next.out| == |cl.out| + 1))
  {
  }

  /** Where a load can come from in one turn. */
  lemma NextPlace(c: Compiler, w: World, cl: Client, ok: bool)
    ensures var next := Continue(c, w, cl, ok);
            && (Reading(next.pc) ==> Reading(cl.pc) && next.compiled == cl.compiled)
            && (next.pc.ImageInfo? ==> cl.pc.LayerUpdate? && ok && cl.configs[|cl.out|].digest in w.store && next.out == cl.out)
            && (next.pc.ImageUpdate? ==> cl.pc.ImageInfo? && next.out == cl.out)
            && (next.pc.Release? ==> cl.pc.ImageUpdate? && ok && cl.image in w.store && next.out == cl.out)
  {
  }

  lemma NextFinished(c: Compiler, w: World, cl: Client, ok: bool)
    requires Continue(c, w, cl, ok).pc.Finished? && Continue(c, w, cl, ok).pc.result.Loaded?
    ensures var next := Continue(c, w, cl, ok);
            || cl == next
            || (Reading(cl.pc) && next.compiled == cl.compiled)
            || (cl.pc.NextLayer? && next.out == cl.out && |cl.out| == |cl.configs|)
  {
  }

  lemma BlobCommitted(w: World, me: nat, cl: Client)
    requires (cl.pc.Commit? && cl.engine in w.leases && Accepts(w, cl)) || (PastCommit(cl.pc) && Sha256(Current(cl)) in w.store)
    ensures Sha256(Current(cl)) in Effect(w, me, cl).store
  {
    WritesNeedTheLease(w, me, cl);
  }

  /** The blob a client is saving is pinned, and gentle actions do not delete it. */
  lemma BlobStays(c: Compiler, e: Engine, image: Digest, w: World, me: nat, a: Action)
    requires OwnOutput(c) && me in w.clients && HolderOk(w, me, w.clients[me]) && ClientInv(c, w.clients[me])
    requires Loads(e, image, w.clients[me]) && Gentle(c, e, image, a)
    requires PastCommit(w.clients[me].pc) && Sha256(Current(w.clients[me])) in w.store
    ensures Sha256(Current(w.clients[me])) in Do(c, w, a).store
  {
    CompiledLayer(c, w.clients[me], |w.clients[me].out|);
    if a.Turn? && a.me in w.clients { WritesNeedTheLease(w, a.me, w.clients[a.me]); }
  }

  lemma OwnTurnStaysSaved(c: Compiler, e: Engine, image: Digest, w: World, me: nat, fate: Fate)
    requires me in w.clients
    requires StaysWarm(e, image, w, ClientTurn(c, w, me, fate))
    requires Loads(e, image, w.clients[me]) && Saved(w, e, w.clients[me])
    ensures Saved(ClientTurn(c, w, me, fate), e, ClientTurn(c, w, me, fate).clients[me])
  {
    var cl := w.clients[me];
    var next := Continue(c, w, cl, fate.Served?);
    ContinueFrame(c, w, cl, fate.Served?);
    NextOutput(c, w, cl, fate.Served?);
    NextPlace(c, w, cl, fate.Served?);
    if next.pc.Finished? && next.pc.result.Loaded? { NextFinished(c, w, cl, fate.Served?); }
    if PastCommit(next.pc) {
      NextHeld(c, w, cl, fate.Served?);
      BlobCommitted(w, me, cl);
    }
    if cl.pc.LayerUpdate? && cl.configs[|cl.out|].digest in w.store && TakesEffect(fate) {
      LayerUpdateWarms(c, w, me, cl);
    } else if cl.pc.ImageUpdate? && image in w.store && TakesEffect(fate) {
      ImageUpdateWarms(w, me, cl);
    }
  }

  lemma SavedStays(e: Engine, image: Digest, w: World, w': World, cl: Client)
    requires StaysWarm(e, image, w, w') && Loads(e, image, cl) && Saved(w, e, cl)
    requires cl.pc.Release? ==> ImageRefers(w', cl)
    requires PastCommit(cl.pc) ==> Sha256(Current(cl)) in w'.store
    ensures Saved(w', e, cl)
  {
  }

  /** Inside the lease scope no other client of the engine writes labels, so the image keeps its slot. */
  lemma ImageKeepsReferring(c: Compiler, e: Engine, image: Digest, w: World, me: nat, a: Action)
    requires Running(c, e, image, w) && Gentle(c, e, image, a) && !(a.Turn? && a.me == me)
    requires me in w.clients && Loads(e, image, w.clients[me])
    requires w.clients[me].pc.Release? && ImageRefers(w, w.clients[me])
    ensures ImageRefers(Do(c, w, a), w.clients[me])
  {
    if a.Turn? && a.me in w.clients {
      assert HolderOk(w, me, w.clients[me]) && HolderOk(w, a.me, w.clients[a.me]);
      assert HeldOk(c, e, w, w.clients[a.me]);
      WritesNeedTheLease(w, a.me, w.clients[a.me]);
    }
  }

  lemma StepStaysSaved(c: Compiler, e: Engine, image: Digest, w: World, me: nat, a: Action)
    requires Running(c, e, image, w) && Gentle(c, e, image, a) && (a.Spawn? ==> a.engine == e)
    requires me in w.clients && Loads(e, image, w.clients[me]) && Saved(w, e, w.clients[me])
    ensures var w' := Do(c, w, a);
            && Running(c, e, image, w') && me in w'.clients
            && Loads(e, image, w'.clients[me]) && Saved(w', e, w'.clients[me])
  {
    StepKeepsWarm(c, e, image, w, a);
    ClientAfter(c, w, a, me);
    if a.Turn? && a.me == me {
      OwnTurnStaysSaved(c, e, image, w, me, a.fate);
    } else {
      if w.clients[me].pc.Release? { ImageKeepsReferring(c, e, image, w, me, a); }
      if PastCommit(w.clients[me].pc) { BlobStays(c, e, image, w, me, a); }
      SavedStays(e, image, w, Do(c, w, a), w.clients[me]);
    }
  }

  ghost predicate Warm(w: World, e: Engine, image: Digest, configs: seq<Descriptor>) {
    ImageWarm(w, e, image) && forall i :: 0 <= i < |configs| ==> LayerWarm(w, e, configs[i])
  }

  lemma {:induction false} RunStaysSaved(c: Compiler, e: Engine, image: Digest, w: World, me: nat, actions: seq<Action>)
    requires Running(c, e, image, w) && OnlyEngine(e, actions)
    requires forall i :: 0 <= i < |actions| ==> Gentle(c, e, image, actions[i])
    requires me in w.clients && Loads(e, image, w.clients[me]) && Saved(w, e, w.clients[me])
    ensures var w' := Exec(c, w, actions);
            && Running(c, e, image, w') && me in w'.clients
            && Loads(e, image, w'.clients[me]) && Saved(w', e, w'.clients[me])
  {
    if actions != [] {
      var n := |actions| - 1;
      RunStaysSaved(c, e, image, w, me, actions[..n]);
      StepStaysSaved(c, e, image, Exec(c, w, actions[..n]), me, actions[n]);
    }
  }

  /**
   When a load is about to release its lease, the blob it saved is referred to by the labels of both
   its layer and its image, so a collection that keeps either of them keeps the blob.
   */
  lemma ReleasedBlobIsReferenced(
    c: Compiler, e: Engine, image: Digest, w: World, me: nat, actions: seq<Action>, live: set<Digest>)
    requires Running(c, e, image, w) && OnlyEngine(e, actions)
    requires forall i :: 0 <= i < |actions| ==> Gentle(c, e, image, actions[i])
    requires me in w.clients && Loads(e, image, w.clients[me])
    requires w.clients[me].pc.CheckImage? && w.clients[me].compiled == []
    requires var cl := Exec(c, w, actions).clients; me in cl && cl[me].pc.Release?
    requires Closed(Exec(c, w, actions).store, live)
    ensures var w' := Exec(c, w, actions);
            var cl := w'.clients[me];
            image in live || cl.configs[|cl.out|].digest in live ==> Sha256(Current(cl)) in live
  {
    var w' := Exec(c, w, actions);
    RunStaysSaved(c, e, image, w, me, actions);
    var cl := w'.clients[me];
    var d := cl.configs[|cl.out|].digest;
    assert LayerWarm(w', e, cl.configs[|cl.out|]) && EntryOk(c, e, w', d);
    assert ClientInv(c, cl) && Coherent(c, d, w'.store[d].labels);
    CompiledLayer(c, cl, |cl.out|);
  }

  /** Every run with one engine key satisfies the assumptions made above, whatever was deleted before. */
  lemma ReachableWorldsRun(c: Compiler, e: Engine, image: Digest, actions: seq<Action>)
    requires OwnOutput(c) && OnlyEngine(e, actions)
    requires var w := Exec(c, INIT, actions); image in w.images && image in w.store && image.blob.Manifest?
    ensures Running(c, e, image, Exec(c, INIT, actions))
  {
    RunKeepsRetained(c, e, INIT, actions);
  }
}
