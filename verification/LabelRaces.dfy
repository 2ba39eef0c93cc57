/**
 Label writes of different engines on one blob.  A client reads the labels of a blob and later writes
 them back with its own added, and leases of different engines do not exclude each other.
 */
module LabelRaces {
  import opened Options
  import opened Content
  import opened PrecompileCache
  import opened CacheCoherence

  /** What engine `e` finds on a blob, if it is there. */
  function Lookup(w: World, d: Digest, e: Engine): Option<Value> {
    if d in w.store && Precompile(e) in w.store[d].labels then Some(w.store[d].labels[Precompile(e)]) else None
  }

  // ----- one window between reading and writing back -----

  /** The client's next request reads the labels of `d` in order to add to them. */
  predicate ReadsLabels(cl: Client, d: Digest) {
    (cl.pc.LayerInfo? && d == cl.configs[|cl.out|].digest) || (cl.pc.ImageInfo? && d == cl.image)
  }

  predicate NotMine(me: nat, a: Action) {
    !Own(me, a)
  }

  /** The action is a label write on `d` by a client that reaches containerd. */
  predicate Writes(w: World, a: Action, d: Digest) {
    a.Turn? && a.me in w.clients && TakesEffect(a.fate) && WritesLabels(w.clients[a.me], d)
  }

  /** A served read leaves the client holding a snapshot of what is there. */
  lemma TakesSnapshot(c: Compiler, w: World, me: nat, d: Digest)
    requires me in w.clients && ReadsLabels(w.clients[me], d) && d in w.store
    ensures var w' := Do(c, w, Turn(me, Served));
            && w'.store == w.store && me in w'.clients && WritesLabels(w'.clients[me], d)
            && w'.clients[me].pc.snapshot == w.store[d].labels && w'.clients[me].engine == w.clients[me].engine
  {
    ContinueFrame(c, w, w.clients[me], true);
  }

  lemma {:induction false} OthersLeaveClient(c: Compiler, w: World, me: nat, actions: seq<Action>)
    requires me in w.clients && forall i :: 0 <= i < |actions| ==> NotMine(me, actions[i])
    ensures me in Exec(c, w, actions).clients && Exec(c, w, actions).clients[me] == w.clients[me]
  {
    if actions != [] {
      var n := |actions| - 1;
      OthersLeaveClient(c, w, me, actions[..n]);
      ClientAfter(c, Exec(c, w, actions[..n]), actions[n], me);
    }
  }

  /** Writing a snapshot back gives every other engine what the snapshot had for it. */
  lemma WritesSnapshotBack(c: Compiler, w: World, me: nat, fate: Fate, d: Digest, e: Engine)
    requires me in w.clients && WritesLabels(w.clients[me], d) && d in w.store && TakesEffect(fate)
    requires e != w.clients[me].engine
    ensures Lookup(Do(c, w, Turn(me, fate)), d, e) ==
            var snapshot := w.clients[me].pc.snapshot;
            if Precompile(e) in snapshot then Some(snapshot[Precompile(e)]) else None
  {
    EntryAfter(w, me, w.clients[me], d);
  }

  /** Only a label write gives an engine a new label on a blob. */
  lemma OnlyWritesLabel(c: Compiler, w: World, a: Action, d: Digest, e: Engine)
    requires Lookup(Do(c, w, a), d, e).Some? && Lookup(Do(c, w, a), d, e) != Lookup(w, d, e)
    ensures Writes(w, a, d)
  {
    if a.Turn? {
      if a.me in w.clients { TurnWritesLabel(c, w, a.me, a.fate, d, e); }
    } else {
      OthersKeepEntry(c, w, a, d);
    }
  }

  lemma TurnWritesLabel(c: Compiler, w: World, me: nat, fate: Fate, d: Digest, e: Engine)
    requires me in w.clients
    requires Lookup(ClientTurn(c, w, me, fate), d, e).Some? && Lookup(ClientTurn(c, w, me, fate), d, e) != Lookup(w, d, e)
    ensures TakesEffect(fate) && WritesLabels(w.clients[me], d)
  {
    if TakesEffect(fate) {
      if d in w.store { EntryAfter(w, me, w.clients[me], d); } else { NewBlob(w, me, w.clients[me], d); }
    }
  }

  /** From step `n` of the run on, a label write on `d` has set engine `e`'s lookup to its final value. */
  ghost predicate SetsLastly(c: Compiler, w: World, actions: seq<Action>, n: nat, d: Digest, e: Engine)
    requires n < |actions|
  {
    && Writes(Exec(c, w, actions[..n]), actions[n], d)
    && (forall m :: n < m <= |actions| ==>
          Lookup(Exec(c, w, actions[..m]), d, e) == Lookup(Exec(c, w, actions), d, e))
  }

  lemma {:induction false} LastWrite(c: Compiler, w: World, actions: seq<Action>, d: Digest, e: Engine) returns (n: nat)
    requires Lookup(Exec(c, w, actions), d, e).Some? && Lookup(Exec(c, w, actions), d, e) != Lookup(w, d, e)
    ensures n < |actions| && SetsLastly(c, w, actions, n, d, e)
  {
    var k := |actions| - 1;
    var before := Exec(c, w, actions[..k]);
    assert actions[..|actions|] == actions;
    if Lookup(before, d, e) == Lookup(Exec(c, w, actions), d, e) {
      n := LastWrite(c, w, actions[..k], d, e);
      assert forall m :: 0 <= m <= k ==> actions[..k][..m] == actions[..m];
    } else {
      OnlyWritesLabel(c, before, actions[k], d, e);
      n := k;
    }
  }

  /**
   One window, in any run of any engines: client `me` reads the labels of `d`, others act, and `me`
   writes them back.  Whatever happened in between, every other engine then finds what it found when
   the labels were read.  So the write loses an engine's label exactly when, in the window, another
   client's served label write on `d` had given it a different one that was there to the end.
   */
  lemma LabelIsLostExactly(c: Compiler, w: World, me: nat, others: seq<Action>, fate: Fate, d: Digest, e: Engine)
    requires me in w.clients && ReadsLabels(w.clients[me], d) && d in w.store && TakesEffect(fate)
    requires e != w.clients[me].engine && forall i :: 0 <= i < |others| ==> NotMine(me, others[i])
    ensures var read := Do(c, w, Turn(me, Served));
            var before := Exec(c, read, others);
            var after := Do(c, before, Turn(me, fate));
            && (d in before.store ==> Lookup(after, d, e) == Lookup(w, d, e))
            && (Lookup(before, d, e).Some? && Lookup(after, d, e) != Lookup(before, d, e) <==>
                && Lookup(before, d, e).Some? && Lookup(before, d, e) != Lookup(w, d, e)
                && exists n :: 0 <= n < |others| && others[n].Turn? && others[n].me != me && SetsLastly(c, read, others, n, d, e))
  {
    var read := Do(c, w, Turn(me, Served));
    var before := Exec(c, read, others);
    TakesSnapshot(c, w, me, d);
    OthersLeaveClient(c, read, me, others);
    if d in before.store { WritesSnapshotBack(c, before, me, fate, d, e); }
    if Lookup(before, d, e).Some? && Lookup(before, d, e) != Lookup(w, d, e) {
      var n := LastWrite(c, read, others, d, e);
    }
  }

  // ----- runs without overlapping windows -----

  /** No two clients hold a snapshot of the same blob. */
  ghost predicate NoOverlap(w: World) {
    forall x, y, d ::
      x in w.clients && y in w.clients && WritesLabels(w.clients[x], d) && WritesLabels(w.clients[y], d) ==> x == y
  }

  /** Every lookup label in `labels` is in the snapshot. */
  predicate Covers(snapshot: Labels, labels: Labels) {
    forall k :: k in labels && k.Precompile? ==> k in snapshot && snapshot[k] == labels[k]
  }

  ghost predicate CoversBlob(w: World, cl: Client) {
    forall d :: WritesLabels(cl, d) && d in w.store ==> Covers(cl.pc.snapshot, w.store[d].labels)
  }

  ghost predicate AllCover(w: World) {
    forall x :: x in w.clients ==> CoversBlob(w, w.clients[x])
  }

  lemma OwnTurnCovers(c: Compiler, w: World, me: nat, fate: Fate)
    requires me in w.clients
    ensures var w' := ClientTurn(c, w, me, fate); CoversBlob(w', w'.clients[me])
  {
    var next := Continue(c, w, w.clients[me], fate.Served?);
    ContinueFrame(c, w, w.clients[me], fate.Served?);
    if PastCommit(next.pc) { NextHeld(c, w, w.clients[me], fate.Served?); }
  }

  /** What a turn adds to the store carries no lookup label. */
  lemma NewBlobsUnlabelled(w: World, me: nat, cl: Client, d: Digest)
    requires d !in w.store && d in Effect(w, me, cl).store
    ensures forall k :: k in Effect(w, me, cl).store[d].labels ==> !k.Precompile?
  {
    NewBlob(w, me, cl, d);
  }

  lemma TurnLeavesCovered(c: Compiler, w: World, me: nat, fate: Fate, x: nat)
    requires NoOverlap(w) && me in w.clients && x in w.clients && x != me && CoversBlob(w, w.clients[x])
    ensures CoversBlob(ClientTurn(c, w, me, fate), w.clients[x])
  {
    var w', cl := ClientTurn(c, w, me, fate), w.clients[me];
    forall d | WritesLabels(w.clients[x], d) && d in w'.store
      ensures Covers(w.clients[x].pc.snapshot, w'.store[d].labels)
    {
      assert !WritesLabels(cl, d);
      if d in w.store {
        EntryAfter(w, me, cl, d);
      } else {
        NewBlobsUnlabelled(w, me, cl, d);
      }
    }
  }

  lemma OthersLeaveCovered(c: Compiler, w: World, a: Action, x: nat)
    requires !a.Turn? && x in w.clients && CoversBlob(w, w.clients[x])
    ensures CoversBlob(Do(c, w, a), w.clients[x])
  {
    var w' := Do(c, w, a);
    forall d | d in w'.store
      ensures (d in w.store && w'.store[d] == w.store[d]) || w'.store[d].labels == BaseLabels(d)
    {
    }
  }

  lemma StepCovers(c: Compiler, w: World, a: Action)
    requires NoOverlap(w) && AllCover(w)
    ensures AllCover(Do(c, w, a))
  {
    var w' := Do(c, w, a);
    forall x | x in w'.clients ensures CoversBlob(w', w'.clients[x]) {
      if a.Turn? {
        if a.me in w.clients {
          if x == a.me { OwnTurnCovers(c, w, x, a.fate); } else { TurnLeavesCovered(c, w, a.me, a.fate, x); }
        }
      } else if x in w.clients {
        ClientAfter(c, w, a, x);
        OthersLeaveCovered(c, w, a, x);
      }
    }
  }

  ghost predicate NeverOverlap(c: Compiler, actions: seq<Action>) {
    forall n :: 0 <= n <= |actions| ==> NoOverlap(Exec(c, INIT, actions[..n]))
  }

  lemma {:induction false} RunCovers(c: Compiler, actions: seq<Action>)
    requires NeverOverlap(c, actions)
    ensures AllCover(Exec(c, INIT, actions))
  {
    if actions != [] {
      var k := |actions| - 1;
      assert forall n :: 0 <= n <= k ==> actions[..k][..n] == actions[..n];
      RunCovers(c, actions[..k]);
      assert NoOverlap(Exec(c, INIT, actions[..k]));
      StepCovers(c, Exec(c, INIT, actions[..k]), actions[k]);
    }
  }

  /**
   In runs of any engines in which no two clients hold a snapshot of one blob at once, whatever is
   collected, deleted, pulled or lost meanwhile, no turn takes away or changes another engine's label.
   */
  lemma NoOverlapNoLoss(c: Compiler, actions: seq<Action>, me: nat, fate: Fate, d: Digest, e: Engine)
    requires NeverOverlap(c, actions)
    requires var w := Exec(c, INIT, actions); me in w.clients && w.clients[me].engine != e && Lookup(w, d, e).Some?
    ensures var w := Exec(c, INIT, actions); Lookup(Do(c, w, Turn(me, fate)), d, e) == Lookup(w, d, e)
  {
    var w := Exec(c, INIT, actions);
    RunCovers(c, actions);
    assert CoversBlob(w, w.clients[me]);
    EntryAfter(w, me, w.clients[me], d);
  }

  // ----- and nothing comes back either while snapshots stay with their blobs -----

  /** The labels a client is about to write back are those of the store as it is now. */
  ghost predicate UpToDate(w: World, cl: Client) {
    forall d :: WritesLabels(cl, d) ==> d in w.store && w.store[d].labels == cl.pc.snapshot
  }

  ghost predicate AllCurrent(w: World) {
    forall x :: x in w.clients ==> UpToDate(w, w.clients[x])
  }

  /** No blob goes away while a client holds a snapshot of it. */
  ghost predicate KeepsHeld(c: Compiler, w: World, a: Action) {
    forall x, d :: x in w.clients && WritesLabels(w.clients[x], d) && d in w.store ==> d in Do(c, w, a).store
  }

  lemma OwnTurnCurrent(c: Compiler, w: World, me: nat, fate: Fate)
    requires me in w.clients
    ensures var w' := ClientTurn(c, w, me, fate); UpToDate(w', w'.clients[me])
  {
    var next := Continue(c, w, w.clients[me], fate.Served?);
    ContinueFrame(c, w, w.clients[me], fate.Served?);
    if PastCommit(next.pc) { NextHeld(c, w, w.clients[me], fate.Served?); }
  }

  lemma StaysCurrent(c: Compiler, w: World, a: Action, x: nat)
    requires NoOverlap(w) && KeepsHeld(c, w, a) && x in w.clients && UpToDate(w, w.clients[x]) && NotMine(x, a)
    ensures UpToDate(Do(c, w, a), w.clients[x])
  {
    forall d | WritesLabels(w.clients[x], d)
      ensures d in Do(c, w, a).store && Do(c, w, a).store[d].labels == w.clients[x].pc.snapshot
    {
      if a.Turn? && a.me in w.clients {
        assert !WritesLabels(w.clients[a.me], d);
        EntryAfter(w, a.me, w.clients[a.me], d);
      }
    }
  }

  lemma StepCurrent(c: Compiler, w: World, a: Action)
    requires NoOverlap(w) && AllCurrent(w) && KeepsHeld(c, w, a)
    ensures AllCurrent(Do(c, w, a))
  {
    var w' := Do(c, w, a);
    forall x | x in w'.clients ensures UpToDate(w', w'.clients[x]) {
      if x in w.clients {
        if NotMine(x, a) {
          ClientAfter(c, w, a, x);
          StaysCurrent(c, w, a, x);
        } else if a.Turn? {
          OwnTurnCurrent(c, w, x, a.fate);
        }
      }
    }
  }

  lemma {:induction false} RunCurrent(c: Compiler, actions: seq<Action>)
    requires NeverOverlap(c, actions)
    requires forall n :: 0 <= n < |actions| ==> KeepsHeld(c, Exec(c, INIT, actions[..n]), actions[n])
    ensures AllCurrent(Exec(c, INIT, actions))
  {
    if actions != [] {
      var k := |actions| - 1;
      assert forall n :: 0 <= n <= k ==> actions[..k][..n] == actions[..n];
      RunCurrent(c, actions[..k]);
      assert NoOverlap(Exec(c, INIT, actions[..k]));
      StepCurrent(c, Exec(c, INIT, actions[..k]), actions[k]);
    }
  }

  lemma UpToDateKeepsLookups(c: Compiler, w: World, me: nat, fate: Fate, d: Digest, e: Engine)
    requires me in w.clients && w.clients[me].engine != e && UpToDate(w, w.clients[me])
    ensures Lookup(Do(c, w, Turn(me, fate)), d, e) == Lookup(w, d, e)
  {
    var cl := w.clients[me];
    assert Do(c, w, Turn(me, fate)).store == if TakesEffect(fate) then Effect(w, me, cl).store else w.store;
    if d in w.store {
      EntryAfter(w, me, cl, d);
    } else if d in Effect(w, me, cl).store {
      NewBlobsUnlabelled(w, me, cl, d);
    }
  }

  /** In such runs no turn changes what any other engine finds on any blob, found or not. */
  lemma NoOverlapNoChange(c: Compiler, actions: seq<Action>, me: nat, fate: Fate, d: Digest, e: Engine)
    requires NeverOverlap(c, actions)
    requires forall n :: 0 <= n < |actions| ==> KeepsHeld(c, Exec(c, INIT, actions[..n]), actions[n])
    requires var w := Exec(c, INIT, actions); me in w.clients && w.clients[me].engine != e
    ensures var w := Exec(c, INIT, actions); Lookup(Do(c, w, Turn(me, fate)), d, e) == Lookup(w, d, e)
  {
    RunCurrent(c, actions);
    UpToDateKeepsLookups(c, Exec(c, INIT, actions), me, fate, d, e);
  }

  /** Clients of one engine never overlap: the lease sees to it. */
  lemma OneEngineNeverOverlaps(c: Compiler, actions: seq<Action>, x: nat, y: nat, d: Digest)
    requires OwnOutput(c)
    requires var w := Exec(c, INIT, actions);
             && x in w.clients && y in w.clients && w.clients[x].engine == w.clients[y].engine
             && WritesLabels(w.clients[x], d) && WritesLabels(w.clients[y], d)
    ensures x == y
  {
    MutualExclusion(c, actions, x, y);
  }
}
