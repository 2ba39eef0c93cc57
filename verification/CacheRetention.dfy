/**
 What the lease and the gc references buy when every client uses the same engine key: no label write
 is lost, and no cached module is collected while its layer is kept.
 */
module CacheRetention {
  import opened Content
  import opened PrecompileCache
  import opened CacheCoherence

  predicate OnlyEngine(e: Engine, actions: seq<Action>) {
    forall i :: 0 <= i < |actions| && actions[i].Spawn? ==> actions[i].engine == e
  }

  /** What the labels of a plain layer say about the engine: lookups and gc slots name its compilation. */
  ghost predicate LayerSlots(c: Compiler, e: Engine, d: Digest, labels: Labels) {
    d.blob.Raw? ==>
      && (Precompile(e) in labels ==> labels[Precompile(e)].Ref?)
      && forall i :: Slot(i) in labels ==>
           labels[Slot(i)].Ref? && IsCode(c, e, d.blob, labels[Slot(i)].digest.blob)
  }

  /** A label that names a compiled blob comes with a gc reference to that blob. */
  ghost predicate Referenced(e: Engine, labels: Labels) {
    Precompile(e) in labels && labels[Precompile(e)].Ref? ==>
      exists i :: Slot(i) in labels && labels[Slot(i)] == labels[Precompile(e)]
  }

  ghost predicate EntryOk(c: Compiler, e: Engine, w: World, d: Digest)
    requires d in w.store
  {
    var labels := w.store[d].labels;
    && LayerSlots(c, e, d, labels)
    && Referenced(e, labels)
    && (Precompile(e) in labels && labels[Precompile(e)].Ref? ==> Kept(w, labels[Precompile(e)].digest))
  }

  /** A snapshot taken inside the lease scope is never behind the store. */
  ghost predicate Fresh(w: World, d: Digest, snapshot: Labels) {
    d in w.store ==> SubLabels(w.store[d].labels, snapshot)
  }

  ghost predicate HeldOk(c: Compiler, e: Engine, w: World, cl: Client) {
    && cl.engine == e
    && (cl.pc.LayerUpdate? ==>
          var d := cl.configs[|cl.out|].digest;
          Fresh(w, d, cl.pc.snapshot) && LayerSlots(c, e, d, cl.pc.snapshot))
    && (cl.pc.ImageUpdate? ==>
          Fresh(w, cl.image, cl.pc.snapshot))
  }

  ghost predicate Retained(c: Compiler, e: Engine, w: World) {
    && (forall d :: d in w.store ==> EntryOk(c, e, w, d))
    && (forall me :: me in w.clients ==> HeldOk(c, e, w, w.clients[me]))
  }

  // ----- a client's turn -----

  lemma LayerWrite(c: Compiler, e: Engine, w: World, me: nat, cl: Client)
    requires OwnOutput(c) && ClientInv(c, cl) && HolderOk(w, me, cl) && HeldOk(c, e, w, cl) && cl.pc.LayerUpdate?
    ensures var d := cl.configs[|cl.out|].digest;
            var labels := LayerLabels(cl, cl.pc.snapshot);
            && LayerSlots(c, e, d, labels) && Referenced(e, labels)
            && labels[Precompile(e)] == Ref(Sha256(Current(cl)))
            && Kept(w, Sha256(Current(cl)))
  {
    CompiledLayer(c, cl, |cl.out|);
    assert LayerLabels(cl, cl.pc.snapshot)[Slot(|cl.out|)] == Ref(Sha256(Current(cl)));
  }

  lemma OtherEntryKept(c: Compiler, e: Engine, w: World, me: nat, cl: Client, d: Digest)
    requires d in w.store && EntryOk(c, e, w, d) && cl.engine == e
    requires !(cl.pc.LayerUpdate? && d == cl.configs[|cl.out|].digest)
    ensures d in Effect(w, me, cl).store && EntryOk(c, e, Effect(w, me, cl), d)
  {
    WritesNeedTheLease(w, me, cl);
    EntryAfter(w, me, cl, d);
  }

  /** A blob that a turn adds has no lookup label and no gc slot. */
  lemma NewEntryOk(c: Compiler, e: Engine, w: World, me: nat, cl: Client, d: Digest)
    requires d !in w.store && d in Effect(w, me, cl).store
    ensures EntryOk(c, e, Effect(w, me, cl), d)
  {
    NewBlob(w, me, cl, d);
  }

  lemma TurnKeepsEntry(c: Compiler, e: Engine, w: World, me: nat, d: Digest)
    requires OwnOutput(c) && Inv(c, w) && Retained(c, e, w) && me in w.clients
    requires d in Effect(w, me, w.clients[me]).store
    ensures EntryOk(c, e, Effect(w, me, w.clients[me]), d)
  {
    var cl := w.clients[me];
    if cl.pc.LayerUpdate? && d == cl.configs[|cl.out|].digest {
      assert ClientInv(c, cl) && HolderOk(w, me, cl) && HeldOk(c, e, w, cl);
      LayerWrite(c, e, w, me, cl);
    } else if d in w.store {
      assert HeldOk(c, e, w, cl);
      OtherEntryKept(c, e, w, me, cl, d);
    } else {
      NewEntryOk(c, e, w, me, cl, d);
    }
  }

  lemma TurnKeepsHeld(c: Compiler, e: Engine, w: World, me: nat, fate: Fate)
    requires me in w.clients && HeldOk(c, e, w, w.clients[me])
    requires forall d :: d in w.store ==> LayerSlots(c, e, d, w.store[d].labels)
    ensures HeldOk(c, e, ClientTurn(c, w, me, fate), ClientTurn(c, w, me, fate).clients[me])
  {
    var cl := w.clients[me];
    ContinueFrame(c, w, cl, fate.Served?);
    if PastCommit(Continue(c, w, cl, fate.Served?).pc) { NextHeld(c, w, cl, fate.Served?); }
    WritesNeedTheLease(w, me, cl);
  }

  lemma TurnKeepsOthers(c: Compiler, e: Engine, w: World, me: nat, fate: Fate, other: nat)
    requires OwnOutput(c) && Inv(c, w) && Retained(c, e, w) && me in w.clients && other in w.clients && me != other
    ensures HeldOk(c, e, ClientTurn(c, w, me, fate), w.clients[other])
  {
    var cl, x := w.clients[me], w.clients[other];
    assert HeldOk(c, e, w, x) && HeldOk(c, e, w, cl);
    assert HolderOk(w, other, x) && HolderOk(w, me, cl);
    WritesNeedTheLease(w, me, cl);
  }

  lemma TurnKeepsRetained(c: Compiler, e: Engine, w: World, me: nat, fate: Fate)
    requires OwnOutput(c) && Inv(c, w) && Retained(c, e, w) && me in w.clients
    ensures Retained(c, e, ClientTurn(c, w, me, fate))
  {
    var w' := ClientTurn(c, w, me, fate);
    forall d | d in w'.store ensures EntryOk(c, e, w', d) {
      if TakesEffect(fate) {
        TurnKeepsEntry(c, e, w, me, d);
      } else {
        assert EntryOk(c, e, w, d);
      }
    }
    forall x | x in w'.clients ensures HeldOk(c, e, w', w'.clients[x]) {
      if x == me {
        assert forall d :: d in w.store ==> EntryOk(c, e, w, d);
        TurnKeepsHeld(c, e, w, me, fate);
      } else {
        TurnKeepsOthers(c, e, w, me, fate, x);
      }
    }
  }

  // ----- the environment's steps -----

  lemma GcKeepsRetained(c: Compiler, e: Engine, w: World, live: set<Digest>)
    requires Inv(c, w) && Retained(c, e, w)
    ensures Retained(c, e, Do(c, w, Gc(live)))
  {
    var w' := Do(c, w, Gc(live));
    if MayKeep(w, live) {
      forall d | d in w'.store ensures EntryOk(c, e, w', d) {
        assert EntryOk(c, e, w, d);
      }
      forall x | x in w'.clients ensures HeldOk(c, e, w', w'.clients[x]) {
        assert HeldOk(c, e, w, w.clients[x]) && HolderOk(w, x, w.clients[x]);
      }
    }
  }

  /** Other actions keep an entry or take it away, and what they add carries the labels of a pull. */
  lemma OtherKeepsEntry(c: Compiler, e: Engine, w: World, a: Action, d: Digest)
    requires !a.Turn? && !a.Gc? && d in Do(c, w, a).store && (d in w.store ==> EntryOk(c, e, w, d))
    ensures EntryOk(c, e, Do(c, w, a), d)
    ensures if d in w.store then Do(c, w, a).store[d] == w.store[d] else Do(c, w, a).store[d].labels == BaseLabels(d)
  {
  }

  lemma OtherKeepsHeld(c: Compiler, e: Engine, w: World, w': World, cl: Client)
    requires HeldOk(c, e, w, cl) && ClientInv(c, cl)
    requires forall d :: d in w'.store ==>
               if d in w.store then w'.store[d] == w.store[d] else w'.store[d].labels == BaseLabels(d)
    ensures HeldOk(c, e, w', cl)
  {
  }

  lemma OtherKeepsRetained(c: Compiler, e: Engine, w: World, a: Action)
    requires Inv(c, w) && Retained(c, e, w) && !a.Turn? && !a.Gc? && (a.Spawn? ==> a.engine == e)
    ensures Retained(c, e, Do(c, w, a))
  {
    var w' := Do(c, w, a);
    forall d | d in w'.store
      ensures EntryOk(c, e, w', d)
      ensures if d in w.store then w'.store[d] == w.store[d] else w'.store[d].labels == BaseLabels(d)
    {
      if d in w.store { assert EntryOk(c, e, w, d); }
      OtherKeepsEntry(c, e, w, a, d);
    }
    forall x | x in w'.clients ensures HeldOk(c, e, w', w'.clients[x]) {
      if x in w.clients {
        assert HeldOk(c, e, w, w.clients[x]) && ClientInv(c, w.clients[x]);
        ClientAfter(c, w, a, x);
        if a != Crash(x) { OtherKeepsHeld(c, e, w, w', w.clients[x]); }
      }
    }
  }

  lemma DoKeepsRetained(c: Compiler, e: Engine, w: World, a: Action)
    requires OwnOutput(c) && Inv(c, w) && Retained(c, e, w) && (a.Spawn? ==> a.engine == e)
    ensures Retained(c, e, Do(c, w, a))
  {
    match a
    case Turn(me, fate) => if me in w.clients { TurnKeepsRetained(c, e, w, me, fate); }
    case Gc(live) => GcKeepsRetained(c, e, w, live);
    case _ => OtherKeepsRetained(c, e, w, a);
  }

  lemma {:induction false} RunKeepsRetained(c: Compiler, e: Engine, w: World, actions: seq<Action>)
    requires OwnOutput(c) && Inv(c, w) && Retained(c, e, w) && OnlyEngine(e, actions)
    ensures Inv(c, Exec(c, w, actions)) && Retained(c, e, Exec(c, w, actions))
  {
    RunKeepsInv(c, w, actions);
    if actions != [] {
      var n := |actions| - 1;
      RunKeepsRetained(c, e, w, actions[..n]);
      RunKeepsInv(c, w, actions[..n]);
      DoKeepsRetained(c, e, Exec(c, w, actions[..n]), actions[n]);
    }
  }

  /** What a write under one engine key leaves of the labels before it. */
  ghost predicate LabelsKept(e: Engine, d: Digest, before: Labels, after: Labels) {
    && (d.blob.Raw? ==> SubLabels(before, after))
    && forall k :: k in before ==>
         k in after && (k.Slot? || k == Precompile(e) || after[k] == before[k])
  }

  /** A plain layer already has the values that are written again. */
  lemma LayerLabelsKept(c: Compiler, e: Engine, cl: Client, d: Digest, labels: Labels)
    requires OwnOutput(c) && ClientInv(c, cl) && cl.pc.LayerUpdate? && cl.engine == e
    requires d == cl.configs[|cl.out|].digest && SubLabels(labels, cl.pc.snapshot)
    requires Coherent(c, d, labels) && LayerSlots(c, e, d, labels)
    ensures LabelsKept(e, d, labels, LayerLabels(cl, cl.pc.snapshot))
  {
    CompiledLayer(c, cl, |cl.out|);
  }

  /** Only manifests carry the flag of an image. */
  lemma ImageLabelsKept(e: Engine, cl: Client, labels: Labels)
    requires cl.pc.ImageUpdate? && cl.engine == e && SubLabels(labels, cl.pc.snapshot)
    ensures LabelsKept(e, cl.image, labels, ImageLabels(cl, cl.pc.snapshot))
  {
  }

  lemma TurnKeepsLabels(c: Compiler, e: Engine, w: World, me: nat, d: Digest)
    requires OwnOutput(c) && Inv(c, w) && Retained(c, e, w) && me in w.clients && d in w.store
    ensures var store := Effect(w, me, w.clients[me]).store;
            d in store && LabelsKept(e, d, w.store[d].labels, store[d].labels)
  {
    var cl := w.clients[me];
    assert HeldOk(c, e, w, cl) && ClientInv(c, cl);
    EntryAfter(w, me, cl, d);
    if cl.pc.LayerUpdate? && d == cl.configs[|cl.out|].digest {
      assert EntryOk(c, e, w, d) && EntryInv(c, d, w.store[d]);
      LayerLabelsKept(c, e, cl, d, w.store[d].labels);
    } else if cl.pc.ImageUpdate? && d == cl.image {
      ImageLabelsKept(e, cl, w.store[d].labels);
    }
  }

  // ----- theorems over every run with one engine key -----

  /**
   No client's write is overwritten by a stale read: a turn keeps every label of every blob.  On a
   plain layer the values stay too; on a manifest only the lookup flag and gc slots may change value.
   */
  lemma NoLostUpdate(c: Compiler, e: Engine, actions: seq<Action>, me: nat, fate: Fate, d: Digest)
    requires OwnOutput(c) && OnlyEngine(e, actions) && d in Exec(c, INIT, actions).store
    ensures var w := Exec(c, INIT, actions);
            var w' := Do(c, w, Turn(me, fate));
            && d in w'.store
            && LabelsKept(e, d, w.store[d].labels, w'.store[d].labels)
  {
    RunKeepsRetained(c, e, INIT, actions);
    DoKeepsLabels(c, e, Exec(c, INIT, actions), me, fate, d);
  }

  lemma DoKeepsLabels(c: Compiler, e: Engine, w: World, me: nat, fate: Fate, d: Digest)
    requires OwnOutput(c) && Inv(c, w) && Retained(c, e, w) && d in w.store
    ensures d in Do(c, w, Turn(me, fate)).store
    ensures LabelsKept(e, d, w.store[d].labels, Do(c, w, Turn(me, fate)).store[d].labels)
  {
    if me in w.clients { TurnKeepsLabels(c, e, w, me, d); }
  }

  /**
   A lookup label never dangles: in every run the compiled blob it names is in the store, unless it
   was deleted by hand, and every collection that keeps the layer keeps the compiled blob.
   */
  lemma CachedModulesSurviveGc(c: Compiler, e: Engine, actions: seq<Action>, d: Digest, live: set<Digest>)
    requires OwnOutput(c) && OnlyEngine(e, actions)
    requires var store := Exec(c, INIT, actions).store;
             && d in store && Precompile(e) in store[d].labels && store[d].labels[Precompile(e)].Ref?
    ensures var w := Exec(c, INIT, actions);
            var v := w.store[d].labels[Precompile(e)].digest;
            var w' := Do(c, w, Gc(live));
            && Kept(w, v)
            && (d in w'.store && v in w.store ==> v in w'.store)
  {
    RunKeepsRetained(c, e, INIT, actions);
    assert EntryOk(c, e, Exec(c, INIT, actions), d);
  }
}
