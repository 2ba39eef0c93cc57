/**
 What every run of the precompile cache keeps, for any number of clients and engines: labels only
 ever name the compilation of the layer they are on, leases exclude each other, and a load returns
 what an uncached load would.
 */
module CacheCoherence {
  import opened Options
  import opened Content
  import opened PrecompileCache

  /** The module an uncached load would hand to the runtime for one layer. */
  function Expected(c: Compiler, e: Engine, config: Descriptor): Blob {
    match c(e, config.digest.blob)
    case Code(code) => Raw(code)
    case _ => config.digest.blob
  }

  /**
   A precompile label that parses names the compilation of the blob it is on, and an original label
   names a blob this one is the compilation of.
   */
  ghost predicate Coherent(c: Compiler, d: Digest, labels: Labels) {
    && (forall e :: Precompile(e) in labels && labels[Precompile(e)].Ref? ==>
          IsCode(c, e, d.blob, labels[Precompile(e)].digest.blob))
    && (forall e :: Original(e) in labels ==>
          labels[Original(e)].Ref? && IsCode(c, e, labels[Original(e)].digest.blob, d.blob))
  }

  /** Content is what its digest says, its labels are coherent and it has the labels of a pull. */
  ghost predicate EntryInv(c: Compiler, d: Digest, entry: Entry) {
    && entry.data == d.blob
    && Coherent(c, d, entry.labels)
    && SubLabels(BaseLabels(d), entry.labels)
  }

  ghost predicate StoreInv(c: Compiler, store: Store) {
    forall d :: d in store ==> EntryInv(c, d, store[d])
  }

  /** The layers as read: each is the cached compilation, or the original and a compile is due. */
  ghost predicate ReadOk(c: Compiler, e: Engine, configs: seq<Descriptor>, due: bool, layers: seq<Layer>)
    requires |layers| <= |configs|
  {
    forall i :: 0 <= i < |layers| ==>
      && layers[i].config == configs[i]
      && (|| IsCode(c, e, configs[i].digest.blob, layers[i].data)
          || (due && layers[i].data == configs[i].digest.blob))
  }

  predicate Exactly(c: Compiler, e: Engine, configs: seq<Descriptor>, layers: seq<Layer>)
    requires |layers| <= |configs|
  {
    forall i :: 0 <= i < |layers| ==> layers[i] == Layer(configs[i], Expected(c, e, configs[i]))
  }

  ghost predicate Usable(c: Compiler, e: Engine, configs: seq<Descriptor>, layers: seq<Layer>) {
    && |layers| == |configs|
    && forall i :: 0 <= i < |layers| ==>
         && layers[i].config == configs[i]
         && (|| layers[i].data == configs[i].digest.blob
             || IsCode(c, e, configs[i].digest.blob, layers[i].data))
  }

  ghost predicate ResultOk(c: Compiler, cl: Client)
    requires cl.pc.Finished?
  {
    match cl.pc.result
    case Failed => true
    case Loaded(layers, compileFailed) =>
      && Usable(c, cl.engine, cl.configs, layers)
      && (!compileFailed ==> Exactly(c, cl.engine, cl.configs, layers))
  }

  ghost predicate ClientInv(c: Compiler, cl: Client) {
    && ReadOk(c, cl.engine, cl.configs, cl.needsPrecompile, cl.layers)
    && (cl.pc.ReadCached? ==> IsCode(c, cl.engine, cl.configs[|cl.layers|].digest.blob, cl.pc.cached.blob))
    && (cl.pc.ReadOriginal? ==> cl.needsPrecompile)
    && (cl.pc.NextLayer? || Saving(cl.pc) ==>
          && cl.compiled == CompileAll(c, cl.engine, cl.layers)
          && Exactly(c, cl.engine, cl.configs, cl.out))
    && (cl.pc.LayerUpdate? ==>
          && Coherent(c, cl.configs[|cl.out|].digest, cl.pc.snapshot)
          && SubLabels(BaseLabels(cl.configs[|cl.out|].digest), cl.pc.snapshot))
    && (cl.pc.ImageUpdate? ==>
          && Coherent(c, cl.image, cl.pc.snapshot)
          && SubLabels(BaseLabels(cl.image), cl.pc.snapshot))
    && (cl.pc.Finished? ==> ResultOk(c, cl))
  }

  /** Present, unless somebody deleted it by hand. */
  predicate Kept(w: World, d: Digest) {
    d in w.store || d in w.deleted
  }

  /** A client in the lease scope owns the lease of its engine, and past the commit its blob is there and pinned. */
  ghost predicate HolderOk(w: World, me: nat, cl: Client) {
    HoldsLease(cl.pc) ==>
      && cl.engine in w.leases
      && w.leases[cl.engine].owner == me
      && (PastCommit(cl.pc) ==>
            && Sha256(Current(cl)) in w.leases[cl.engine].pins
            && Kept(w, Sha256(Current(cl))))
  }

  ghost predicate Inv(c: Compiler, w: World) {
    && StoreInv(c, w.store)
    && (forall me :: me in w.clients ==> ClientInv(c, w.clients[me]) && HolderOk(w, me, w.clients[me]))
  }

  // ----- one layer's compilation -----

  /** `compile` pushes at most one entry per layer, so equal lengths mean entry i belongs to layer i. */
  lemma {:induction false} Alignment(c: Compiler, e: Engine, layers: seq<Layer>)
    ensures |CompileAll(c, e, layers)| <= |layers|
    ensures |CompileAll(c, e, layers)| == |layers| <==>
            forall i :: 0 <= i < |layers| ==> c(e, layers[i].data) != Unknown
    ensures |CompileAll(c, e, layers)| == |layers| ==>
            forall i :: 0 <= i < |layers| ==>
              CompileAll(c, e, layers)[i] ==
                match c(e, layers[i].data) { case Code(code) => Some(code) case _ => None }
  {
    if layers != [] {
      var n := |layers| - 1;
      Alignment(c, e, layers[..n]);
      assert forall i :: 0 <= i < n ==> layers[..n][i] == layers[i];
    }
  }

  /** A layer that was read from the cache is left alone, one read as original is compiled. */
  lemma CompiledLayer(c: Compiler, cl: Client, i: nat)
    requires OwnOutput(c) && ClientInv(c, cl) && (cl.pc.NextLayer? || Saving(cl.pc)) && i < |cl.layers|
    ensures cl.compiled[i].Some? ==>
              && cl.layers[i].data == cl.configs[i].digest.blob
              && IsCode(c, cl.engine, cl.configs[i].digest.blob, Raw(cl.compiled[i].value))
              && Raw(cl.compiled[i].value) == Expected(c, cl.engine, cl.configs[i])
    ensures cl.compiled[i].None? ==> cl.layers[i] == Layer(cl.configs[i], Expected(c, cl.engine, cl.configs[i]))
  {
    Alignment(c, cl.engine, cl.layers);
  }

  // ----- preservation -----

  lemma PushKeeps(c: Compiler, cl: Client, data: Blob)
    requires ClientInv(c, cl) && |cl.layers| < |cl.configs| && !cl.pc.Finished?
    requires var original := cl.configs[|cl.layers|].digest.blob;
             IsCode(c, cl.engine, original, data) || (cl.needsPrecompile && data == original)
    ensures ClientInv(c, PushLayer(cl, data))
  {
    var layers := cl.layers + [Layer(cl.configs[|cl.layers|], data)];
    PushedReadOk(c, cl.engine, cl.configs, cl.needsPrecompile, cl.layers, data);
    if |layers| == |cl.configs| && !cl.needsPrecompile { AllCachedIsExact(c, cl.engine, cl.configs, layers); }
  }

  lemma PushedReadOk(c: Compiler, e: Engine, configs: seq<Descriptor>, due: bool, layers: seq<Layer>, data: Blob)
    requires |layers| < |configs| && ReadOk(c, e, configs, due, layers)
    requires var original := configs[|layers|].digest.blob; IsCode(c, e, original, data) || (due && data == original)
    ensures ReadOk(c, e, configs, due, layers + [Layer(configs[|layers|], data)])
  {
  }

  lemma AllCachedIsExact(c: Compiler, e: Engine, configs: seq<Descriptor>, layers: seq<Layer>)
    requires |layers| == |configs| && ReadOk(c, e, configs, false, layers)
    ensures Usable(c, e, configs, layers) && Exactly(c, e, configs, layers)
  {
  }

  lemma ReadKeeps(c: Compiler, w: World, cl: Client, ok: bool)
    requires StoreInv(c, w.store) && ClientInv(c, cl)
    requires cl.pc.CheckImage? || cl.pc.ReadInfo? || cl.pc.ReadCached? || cl.pc.ReadOriginal?
    ensures ClientInv(c, Continue(c, w, cl, ok))
  {
    if cl.pc.ReadCached? && ok && cl.pc.cached in w.store {
      PushKeeps(c, cl, w.store[cl.pc.cached].data);
    } else if cl.pc.ReadOriginal? && ok && cl.configs[|cl.layers|].digest in w.store {
      PushKeeps(c, cl, w.store[cl.configs[|cl.layers|].digest].data);
    }
  }

  lemma LoopHeadKeeps(c: Compiler, w: World, cl: Client, ok: bool)
    requires OwnOutput(c) && ClientInv(c, cl)
    requires cl.pc.NextLayer? || cl.pc.Release?
    ensures ClientInv(c, Continue(c, w, cl, ok))
  {
    if |cl.out| < |cl.configs| {
      CompiledLayer(c, cl, |cl.out|);
    }
  }

  lemma SnapshotKeeps(c: Compiler, w: World, cl: Client, ok: bool)
    requires StoreInv(c, w.store) && ClientInv(c, cl) && (cl.pc.LayerInfo? || cl.pc.ImageInfo?)
    ensures ClientInv(c, Continue(c, w, cl, ok))
  {
  }

  lemma UpdateKeeps(c: Compiler, w: World, cl: Client, ok: bool)
    requires ClientInv(c, cl) && (cl.pc.LayerUpdate? || cl.pc.ImageUpdate?)
    ensures ClientInv(c, Continue(c, w, cl, ok))
  {
  }

  lemma LeaseKeeps(c: Compiler, w: World, cl: Client, ok: bool)
    requires ClientInv(c, cl) && (cl.pc.AcquireLease? || cl.pc.Commit? || cl.pc.Dropping? || cl.pc.Finished?)
    ensures ClientInv(c, Continue(c, w, cl, ok))
  {
  }

  lemma ContinueKeeps(c: Compiler, w: World, cl: Client, ok: bool)
    requires OwnOutput(c) && StoreInv(c, w.store) && ClientInv(c, cl)
    ensures ClientInv(c, Continue(c, w, cl, ok))
  {
    match cl.pc
    case CheckImage => ReadKeeps(c, w, cl, ok);
    case ReadInfo => ReadKeeps(c, w, cl, ok);
    case ReadCached(_) => ReadKeeps(c, w, cl, ok);
    case ReadOriginal => ReadKeeps(c, w, cl, ok);
    case NextLayer => LoopHeadKeeps(c, w, cl, ok);
    case Release => LoopHeadKeeps(c, w, cl, ok);
    case Compile =>
    case LayerInfo => SnapshotKeeps(c, w, cl, ok);
    case ImageInfo => SnapshotKeeps(c, w, cl, ok);
    case LayerUpdate(_) => UpdateKeeps(c, w, cl, ok);
    case ImageUpdate(_) => UpdateKeeps(c, w, cl, ok);
    case _ => LeaseKeeps(c, w, cl, ok);
  }

  lemma EntryStays(c: Compiler, store: Store, store': Store, d: Digest, entry: Entry)
    requires StoreInv(c, store) && store' == store[d := entry] && EntryInv(c, d, entry)
    ensures StoreInv(c, store')
  {
  }

  lemma RelabelKeeps(c: Compiler, store: Store, d: Digest, labels: Labels)
    requires StoreInv(c, store) && Coherent(c, d, labels) && SubLabels(BaseLabels(d), labels)
    ensures StoreInv(c, SetLabels(store, d, labels))
  {
    if d in store { EntryStays(c, store, SetLabels(store, d, labels), d, store[d].(labels := labels)); }
  }

  lemma LayerLabelsOk(c: Compiler, cl: Client, d: Digest, snapshot: Labels)
    requires Saving(cl.pc) && IsCode(c, cl.engine, d.blob, Current(cl))
    requires Coherent(c, d, snapshot) && SubLabels(BaseLabels(d), snapshot)
    ensures Coherent(c, d, LayerLabels(cl, snapshot)) && SubLabels(BaseLabels(d), LayerLabels(cl, snapshot))
  {
  }

  lemma ImageLabelsOk(c: Compiler, cl: Client, d: Digest, snapshot: Labels)
    requires Saving(cl.pc)
    requires Coherent(c, d, snapshot) && SubLabels(BaseLabels(d), snapshot)
    ensures Coherent(c, d, ImageLabels(cl, snapshot)) && SubLabels(BaseLabels(d), ImageLabels(cl, snapshot))
  {
  }

  lemma LayerWriteKeeps(c: Compiler, w: World, me: nat, cl: Client)
    requires OwnOutput(c) && StoreInv(c, w.store) && ClientInv(c, cl) && cl.pc.LayerUpdate?
    ensures StoreInv(c, Effect(w, me, cl).store)
  {
    var d := cl.configs[|cl.out|].digest;
    CompiledLayer(c, cl, |cl.out|);
    var labels := LayerLabels(cl, cl.pc.snapshot);
    LayerLabelsOk(c, cl, d, cl.pc.snapshot);
    assert Effect(w, me, cl).store == SetLabels(w.store, d, labels);
    RelabelKeeps(c, w.store, d, labels);
  }

  lemma ImageWriteKeeps(c: Compiler, w: World, me: nat, cl: Client)
    requires StoreInv(c, w.store) && cl.pc.ImageUpdate?
    requires Coherent(c, cl.image, cl.pc.snapshot) && SubLabels(BaseLabels(cl.image), cl.pc.snapshot)
    ensures StoreInv(c, Effect(w, me, cl).store)
  {
    var labels := ImageLabels(cl, cl.pc.snapshot);
    ImageLabelsOk(c, cl, cl.image, cl.pc.snapshot);
    ImageEffect(w, me, cl);
    RelabelKeeps(c, w.store, cl.image, labels);
  }

  lemma ImageEffect(w: World, me: nat, cl: Client)
    requires cl.pc.ImageUpdate?
    ensures Effect(w, me, cl).store == SetLabels(w.store, cl.image, ImageLabels(cl, cl.pc.snapshot))
  {
  }

  lemma CommittedEntryOk(c: Compiler, e: Engine, d: Digest, code: Bytes)
    requires IsCode(c, e, d.blob, Raw(code))
    ensures EntryInv(c, Sha256(Raw(code)), Entry(Raw(code), map[Original(e) := Ref(d)]))
  {
  }

  lemma CommitKeeps(c: Compiler, w: World, me: nat, cl: Client)
    requires OwnOutput(c) && StoreInv(c, w.store) && ClientInv(c, cl) && cl.pc.Commit?
    ensures StoreInv(c, Effect(w, me, cl).store)
  {
    CompiledLayer(c, cl, |cl.out|);
    var d, v := cl.configs[|cl.out|].digest, Sha256(Current(cl));
    CommittedEntryOk(c, cl.engine, d, v.blob.bytes);
    if cl.engine in w.leases && v !in w.store && Accepts(w, cl) {
      EntryStays(c, w.store, Effect(w, me, cl).store, v, Entry(v.blob, map[Original(cl.engine) := Ref(d)]));
    }
  }

  lemma EffectKeepsStore(c: Compiler, w: World, me: nat, cl: Client)
    requires OwnOutput(c) && StoreInv(c, w.store) && ClientInv(c, cl)
    ensures StoreInv(c, Effect(w, me, cl).store)
  {
    match cl.pc
    case LayerUpdate(_) => LayerWriteKeeps(c, w, me, cl);
    case ImageUpdate(_) => ImageWriteKeeps(c, w, me, cl);
    case Commit => CommitKeeps(c, w, me, cl);
    case _ => assert Effect(w, me, cl).store == w.store;
  }

  /** The step only reads, or it is taken inside the lease scope. */
  lemma WritesNeedTheLease(w: World, me: nat, cl: Client)
    ensures Effect(w, me, cl).store != w.store ==> HoldsLease(cl.pc)
    ensures Effect(w, me, cl).deleted == w.deleted
    ensures forall d :: d in w.store ==> d in Effect(w, me, cl).store
  {
    match cl.pc
    case Commit =>
    case LayerUpdate(_) =>
    case ImageUpdate(_) =>
    case _ => LeavesStore(w, me, cl);
  }

  lemma LeavesStore(w: World, me: nat, cl: Client)
    requires !cl.pc.Commit? && !cl.pc.LayerUpdate? && !cl.pc.ImageUpdate?
    ensures Effect(w, me, cl).store == w.store && Effect(w, me, cl).deleted == w.deleted
  {
  }

  /** The client's next request replaces the labels of `d`. */
  predicate WritesLabels(cl: Client, d: Digest) {
    (cl.pc.LayerUpdate? && d == cl.configs[|cl.out|].digest) || (cl.pc.ImageUpdate? && d == cl.image)
  }

  /** What a turn leaves of one blob: the entry it found, or that entry with the labels it writes. */
  lemma EntryAfter(w: World, me: nat, cl: Client, d: Digest)
    requires d in w.store
    ensures d in Effect(w, me, cl).store
    ensures var entry := Effect(w, me, cl).store[d];
            if cl.pc.LayerUpdate? && d == cl.configs[|cl.out|].digest then
              entry == w.store[d].(labels := LayerLabels(cl, cl.pc.snapshot))
            else if cl.pc.ImageUpdate? && d == cl.image then
              entry == w.store[d].(labels := ImageLabels(cl, cl.pc.snapshot))
            else
              entry == w.store[d]
  {
    match cl.pc
    case LayerUpdate(_) =>
    case ImageUpdate(_) =>
    case Commit => if cl.engine in w.leases { CommitLeavesEntry(w, cl, d); }
    case _ => assert Effect(w, me, cl).store == w.store;
  }

  lemma CommitLeavesEntry(w: World, cl: Client, d: Digest)
    requires cl.pc.Commit? && cl.engine in w.leases && d in w.store
    ensures d in CommitEffect(w, cl).store && CommitEffect(w, cl).store[d] == w.store[d]
  {
  }

  /** What a turn adds to the store: the compiled blob, with its provenance as only label. */
  lemma NewBlob(w: World, me: nat, cl: Client, d: Digest)
    requires d !in w.store && d in Effect(w, me, cl).store
    ensures cl.pc.Commit? && d == Sha256(Current(cl))
    ensures Effect(w, me, cl).store[d] ==
            Entry(d.blob, map[Original(cl.engine) := Ref(cl.configs[|cl.out|].digest)])
  {
    if !cl.pc.Commit? { OnlyCommitsAdd(w, me, cl, d); }
  }

  lemma OnlyCommitsAdd(w: World, me: nat, cl: Client, d: Digest)
    requires !cl.pc.Commit? && d in Effect(w, me, cl).store
    ensures d in w.store
  {
    match cl.pc
    case LayerUpdate(_) =>
    case ImageUpdate(_) =>
    case _ => LeavesStore(w, me, cl);
  }

  /** How a client gets into the lease scope and moves through it. */
  lemma NextHolder(c: Compiler, w: World, cl: Client, ok: bool)
    ensures var next := Continue(c, w, cl, ok);
            HoldsLease(next.pc) ==>
              || (cl.pc.AcquireLease? && next.pc.Commit? && ok && cl.engine !in w.leases)
              || (HoldsLease(cl.pc) && !cl.pc.Release? && !cl.pc.Dropping?)
  {
  }

  lemma SavingFrom(c: Compiler, w: World, cl: Client, ok: bool)
    requires PastCommit(Continue(c, w, cl, ok).pc)
    ensures (cl.pc.Commit? || PastCommit(cl.pc)) && !cl.pc.Release?
    ensures Continue(c, w, cl, ok) == cl.(pc := AfterSave(w, cl, ok))
  {
  }

  lemma NextHeld(c: Compiler, w: World, cl: Client, ok: bool)
    requires PastCommit(Continue(c, w, cl, ok).pc)
    ensures var next := Continue(c, w, cl, ok);
            && ok && (cl.pc.Commit? || PastCommit(cl.pc)) && !cl.pc.Release?
            && (cl.pc.Commit? ==> cl.engine in w.leases && Accepts(w, cl))
            && next.out == cl.out && Current(next) == Current(cl)
            && (next.pc.LayerUpdate? ==>
                  var d := cl.configs[|cl.out|].digest;
                  cl.pc.LayerInfo? && d in w.store && next.pc.snapshot == w.store[d].labels)
            && (next.pc.ImageUpdate? ==>
                  cl.pc.ImageInfo? && cl.image in w.store && next.pc.snapshot == w.store[cl.image].labels)
  {
    SavingFrom(c, w, cl, ok);
  }

  lemma TurnKeepsOwnLease(c: Compiler, w: World, me: nat, fate: Fate)
    requires me in w.clients && HolderOk(w, me, w.clients[me])
    ensures HolderOk(ClientTurn(c, w, me, fate), me, ClientTurn(c, w, me, fate).clients[me])
  {
    var cl := w.clients[me];
    ContinueFrame(c, w, cl, fate.Served?);
    NextHolder(c, w, cl, fate.Served?);
    if PastCommit(Continue(c, w, cl, fate.Served?).pc) { NextHeld(c, w, cl, fate.Served?); }
    WritesNeedTheLease(w, me, cl);
  }

  lemma TurnKeepsOtherLease(c: Compiler, w: World, me: nat, fate: Fate, other: nat, cl: Client)
    requires me in w.clients && other != me
    requires HolderOk(w, me, w.clients[me]) && HolderOk(w, other, cl)
    ensures HolderOk(ClientTurn(c, w, me, fate), other, cl)
  {
    WritesNeedTheLease(w, me, w.clients[me]);
    if HoldsLease(cl.pc) { LeaseKept(w, me, w.clients[me], cl.engine); }
  }

  /** A turn leaves the leases of other clients and what they pin. */
  lemma LeaseKept(w: World, me: nat, cl: Client, e: Engine)
    requires HolderOk(w, me, cl) && e in w.leases && w.leases[e].owner != me
    ensures var leases := Effect(w, me, cl).leases;
            e in leases && leases[e].owner == w.leases[e].owner && w.leases[e].pins <= leases[e].pins
  {
    match cl.pc
    case Commit =>
    case AcquireLease =>
    case Release =>
    case Dropping =>
    case _ => assert Effect(w, me, cl).leases == w.leases;
  }

  lemma TurnKeepsInv(c: Compiler, w: World, me: nat, fate: Fate)
    requires OwnOutput(c) && Inv(c, w) && me in w.clients
    ensures Inv(c, ClientTurn(c, w, me, fate))
  {
    var w' := ClientTurn(c, w, me, fate);
    EffectKeepsStore(c, w, me, w.clients[me]);
    forall x | x in w'.clients ensures ClientInv(c, w'.clients[x]) && HolderOk(w', x, w'.clients[x]) {
      if x == me {
        ContinueKeeps(c, w, w.clients[me], fate.Served?);
        TurnKeepsOwnLease(c, w, me, fate);
      } else {
        TurnKeepsOtherLease(c, w, me, fate, x, w.clients[x]);
      }
    }
  }

  lemma OthersKeepStore(c: Compiler, w: World, a: Action)
    requires StoreInv(c, w.store) && !a.Turn?
    ensures StoreInv(c, Do(c, w, a).store)
  {
    var store := Do(c, w, a).store;
    forall d | d in store ensures EntryInv(c, d, store[d]) {
      OthersKeepEntry(c, w, a, d);
      if d in w.store { assert EntryInv(c, d, w.store[d]); } else { PulledEntryOk(c, d); }
    }
  }

  /** Other actions keep an entry or take it away, and what they add is what a pull brings. */
  lemma OthersKeepEntry(c: Compiler, w: World, a: Action, d: Digest)
    requires !a.Turn? && d in Do(c, w, a).store
    ensures Do(c, w, a).store[d] == if d in w.store then w.store[d] else Entry(d.blob, BaseLabels(d))
  {
  }

  lemma PulledEntryOk(c: Compiler, d: Digest)
    ensures EntryInv(c, d, Entry(d.blob, BaseLabels(d)))
  {
  }

  lemma OthersKeepClient(c: Compiler, w: World, a: Action, me: nat)
    requires !a.Turn? && me in Do(c, w, a).clients
    requires me in w.clients ==> ClientInv(c, w.clients[me]) && HolderOk(w, me, w.clients[me])
    ensures ClientInv(c, Do(c, w, a).clients[me]) && HolderOk(Do(c, w, a), me, Do(c, w, a).clients[me])
  {
    if me in w.clients {
      ClientAfter(c, w, a, me);
      if a != Crash(me) { OthersKeepHolder(c, w, a, me, w.clients[me]); }
    }
  }

  /** Other actions leave the leases and what they pin, unless it is deleted by hand. */
  lemma OthersKeepHolder(c: Compiler, w: World, a: Action, me: nat, cl: Client)
    requires !a.Turn? && HolderOk(w, me, cl)
    ensures HolderOk(Do(c, w, a), me, cl)
  {
    assert Do(c, w, a).leases == w.leases;
    if a.Gc? && PastCommit(cl.pc) { CollectKeepsPinned(w, cl.engine, Sha256(Current(cl)), a.live); }
  }

  lemma DoKeepsInv(c: Compiler, w: World, a: Action)
    requires OwnOutput(c) && Inv(c, w)
    ensures Inv(c, Do(c, w, a))
  {
    var w' := Do(c, w, a);
    if a.Turn? {
      if a.me in w.clients { TurnKeepsInv(c, w, a.me, a.fate); }
    } else {
      OthersKeepStore(c, w, a);
      forall x | x in w'.clients ensures ClientInv(c, w'.clients[x]) && HolderOk(w', x, w'.clients[x]) {
        OthersKeepClient(c, w, a, x);
      }
    }
  }

  lemma {:induction false} RunKeepsInv(c: Compiler, w: World, actions: seq<Action>)
    requires OwnOutput(c) && Inv(c, w)
    ensures Inv(c, Exec(c, w, actions))
  {
    if actions != [] {
      RunKeepsInv(c, w, actions[..|actions| - 1]);
      DoKeepsInv(c, Exec(c, w, actions[..|actions| - 1]), actions[|actions| - 1]);
    }
  }

  // ----- theorems over every run -----

  /**
   In every run of any clients, engines, collections, deletions and lost messages: a load that
   succeeds returns one module per config, in order.  Each is the original or its compilation, and
   unless the compile call itself failed each is exactly the module of an uncached load.
   */
  lemma CacheRefinesUncachedLoad(c: Compiler, actions: seq<Action>, me: nat)
    requires OwnOutput(c)
    requires var w := Exec(c, INIT, actions);
             me in w.clients && w.clients[me].pc.Finished? && w.clients[me].pc.result.Loaded?
    ensures var cl := Exec(c, INIT, actions).clients[me];
            var r := cl.pc.result;
            && Usable(c, cl.engine, cl.configs, r.layers)
            && (!r.compileFailed ==>
                  r.layers == seq(|cl.configs|, i requires 0 <= i < |cl.configs| =>
                                  Layer(cl.configs[i], Expected(c, cl.engine, cl.configs[i]))))
  {
    RunKeepsInv(c, INIT, actions);
    assert ClientInv(c, Exec(c, INIT, actions).clients[me]);
  }

  /** In every run a load has compiled entries exactly for the layers it read as originals that compile. */
  lemma CompilesExactlyTheOriginals(c: Compiler, actions: seq<Action>, me: nat, i: nat)
    requires OwnOutput(c)
    requires var w := Exec(c, INIT, actions);
             && me in w.clients && (w.clients[me].pc.NextLayer? || Saving(w.clients[me].pc))
             && i < |w.clients[me].layers|
    ensures var cl := Exec(c, INIT, actions).clients[me];
            var original := cl.configs[i].digest.blob;
            cl.compiled[i].Some? <==> cl.layers[i].data == original && c(cl.engine, original).Code?
  {
    RunKeepsInv(c, INIT, actions);
    CompiledLayer(c, Exec(c, INIT, actions).clients[me], i);
    Alignment(c, Exec(c, INIT, actions).clients[me].engine, Exec(c, INIT, actions).clients[me].layers);
  }

  /**
   In every run and for every engine, a lookup label that parses names the compilation of its layer;
   so whatever other engines do, a lookup either misses or finds the right module.
   */
  lemma LookupNeverLies(c: Compiler, actions: seq<Action>, d: Digest, e: Engine)
    requires OwnOutput(c)
    requires var store := Exec(c, INIT, actions).store;
             && d in store && Precompile(e) in store[d].labels && store[d].labels[Precompile(e)].Ref?
    ensures var store := Exec(c, INIT, actions).store;
            var v := store[d].labels[Precompile(e)].digest;
            && IsCode(c, e, d.blob, v.blob)
            && (v in store ==> IsCode(c, e, d.blob, store[v].data))
  {
    RunKeepsInv(c, INIT, actions);
  }

  /** A blob that a load adds to the store is labelled with the layer it was compiled from, and nothing else. */
  lemma SavedBlobsTellTheirOrigin(c: Compiler, actions: seq<Action>, me: nat, fate: Fate, d: Digest)
    requires OwnOutput(c)
    requires var w := Exec(c, INIT, actions);
             me in w.clients && d !in w.store && d in Do(c, w, Turn(me, fate)).store
    ensures var w := Exec(c, INIT, actions);
            var cl := w.clients[me];
            && |cl.out| < |cl.configs|
            && Do(c, w, Turn(me, fate)).store[d].labels == map[Original(cl.engine) := Ref(cl.configs[|cl.out|].digest)]
            && IsCode(c, cl.engine, cl.configs[|cl.out|].digest.blob, d.blob)
  {
    var w := Exec(c, INIT, actions);
    RunKeepsInv(c, INIT, actions);
    assert ClientInv(c, w.clients[me]);
    NewBlob(w, me, w.clients[me], d);
    CompiledLayer(c, w.clients[me], |w.clients[me].out|);
  }

  /** In every run the back reference of a saved blob names a layer it is the compilation of. */
  lemma ProvenanceNeverLies(c: Compiler, actions: seq<Action>, v: Digest, e: Engine)
    requires OwnOutput(c)
    requires var store := Exec(c, INIT, actions).store; v in store && Original(e) in store[v].labels
    ensures var store := Exec(c, INIT, actions).store;
            && store[v].labels[Original(e)].Ref?
            && IsCode(c, e, store[v].labels[Original(e)].digest.blob, store[v].data)
  {
    RunKeepsInv(c, INIT, actions);
  }

  /**
   From its commit to the release of the lease, with any mix of engines, the blob being saved is in
   the store (unless deleted by hand) and no collection takes it away.
   */
  lemma PinnedWhileSaving(c: Compiler, actions: seq<Action>, me: nat, live: set<Digest>)
    requires OwnOutput(c)
    requires var w := Exec(c, INIT, actions); me in w.clients && PastCommit(w.clients[me].pc)
    ensures var w := Exec(c, INIT, actions);
            var v := Sha256(Current(w.clients[me]));
            && Kept(w, v)
            && (v in w.store ==> v in Do(c, w, Gc(live)).store)
  {
    var w := Exec(c, INIT, actions);
    RunKeepsInv(c, INIT, actions);
    assert HolderOk(w, me, w.clients[me]);
    CollectKeepsPinned(w, w.clients[me].engine, Sha256(Current(w.clients[me])), live);
  }

  lemma CollectKeepsPinned(w: World, e: Engine, v: Digest, live: set<Digest>)
    requires e in w.leases && v in w.leases[e].pins
    ensures v in w.store ==> v in Collect(w, live).store
  {
  }

  /** From `lease` to its release, saving is a critical section of the engine key. */
  lemma MutualExclusion(c: Compiler, actions: seq<Action>, me: nat, other: nat)
    requires OwnOutput(c)
    requires var w := Exec(c, INIT, actions);
             && me in w.clients && HoldsLease(w.clients[me].pc)
             && other in w.clients && HoldsLease(w.clients[other].pc)
             && w.clients[me].engine == w.clients[other].engine
    ensures me == other
  {
    RunKeepsInv(c, INIT, actions);
  }
}
