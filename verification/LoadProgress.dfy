/** Every load comes to an end, and when it fails. */
module LoadProgress {
  import opened Options
  import opened Content
  import opened PrecompileCache
  import opened CacheCoherence
  import opened CacheLeases

  // ----- termination -----

  /** How many turns a load has left at most. */
  function Remaining(cl: Client): nat {
    var n, read, saved := |cl.configs|, |cl.layers|, |cl.out|;
    match cl.pc
    case CheckImage => 11 * n + 4
    case ReadInfo => 8 * n + 3 * (n - read) + 3
    case ReadCached(_) => 8 * n + 3 * (n - read) + 2
    case ReadOriginal => 8 * n + 3 * (n - read) + 1
    case Compile => 8 * n + 3
    case NextLayer => 8 * (n - saved) + 2
    case AcquireLease => 8 * (n - saved) + 1
    case Commit => 8 * (n - saved)
    case LayerInfo => 8 * (n - saved) - 1
    case LayerUpdate(_) => 8 * (n - saved) - 2
    case ImageInfo => 8 * (n - saved) - 3
    case ImageUpdate(_) => 8 * (n - saved) - 4
    case Release => 8 * (n - saved) - 5
    case Dropping => 1
    case Finished(_) => 0
  }

  lemma ReadingProgresses(c: Compiler, w: World, cl: Client, ok: bool)
    requires cl.pc.CheckImage? || cl.pc.ReadInfo? || cl.pc.ReadCached? || cl.pc.ReadOriginal? || cl.pc.Compile?
    ensures Remaining(Continue(c, w, cl, ok)) < Remaining(cl)
  {
  }

  lemma SavingProgresses(c: Compiler, w: World, cl: Client, ok: bool)
    requires cl.pc.NextLayer? || Saving(cl.pc) || cl.pc.Dropping?
    ensures Remaining(Continue(c, w, cl, ok)) < Remaining(cl)
  {
  }

  lemma TurnProgresses(c: Compiler, w: World, cl: Client, ok: bool)
    ensures cl.pc.Finished? || Remaining(Continue(c, w, cl, ok)) < Remaining(cl)
    ensures cl.pc.Finished? ==> Continue(c, w, cl, ok) == cl
  {
    if cl.pc.NextLayer? || Saving(cl.pc) || cl.pc.Dropping? {
      SavingProgresses(c, w, cl, ok);
    } else if !cl.pc.Finished? {
      ReadingProgresses(c, w, cl, ok);
    }
  }

  /**
   Every load of n layers is over after 11n + 4 of its own requests, whatever becomes of them and
   whatever others do in between.
   */
  lemma {:induction false} LoadEnds(c: Compiler, w: World, me: nat, actions: seq<Action>)
    requires me in w.clients
    ensures me in Exec(c, w, actions).clients
    ensures Remaining(Exec(c, w, actions).clients[me]) + OwnTurns(me, actions) <= Remaining(w.clients[me]) ||
            Exec(c, w, actions).clients[me].pc.Finished?
    ensures w.clients[me].pc.CheckImage? && OwnTurns(me, actions) >= 11 * |w.clients[me].configs| + 4 ==>
              Exec(c, w, actions).clients[me].pc.Finished?
  {
    if actions != [] {
      var n := |actions| - 1;
      var before := Exec(c, w, actions[..n]);
      LoadEnds(c, w, me, actions[..n]);
      ClientAfter(c, before, actions[n], me);
      if actions[n].Turn? && actions[n].me == me {
        TurnProgresses(c, before, before.clients[me], actions[n].fate.Served?);
      }
    }
    EndsAtZero(Exec(c, w, actions).clients[me]);
  }

  lemma EndsAtZero(cl: Client)
    ensures Remaining(cl) == 0 ==> cl.pc.Finished?
  {
  }

  // ----- failure -----

  predicate Failing(pc: Pc) {
    pc.Dropping? || pc == Finished(Failed)
  }

  /** Some original layer of the load is none its engine recognises. */
  predicate Unrecognised(c: Compiler, cl: Client) {
    exists i :: 0 <= i < |cl.configs| && c(cl.engine, cl.configs[i].digest.blob).Unknown?
  }

  /**
   What makes a load fail at its next request, whatever becomes of it.  A miss in the cache, an error of
   the compile call and a lost release do not.
   */
  predicate FailsAt(c: Compiler, w: World, cl: Client, fate: Fate) {
    match cl.pc
    case CheckImage => !fate.Served? || cl.image !in w.store
    case ReadInfo => false
    case ReadCached(_) => false
    case ReadOriginal => !fate.Served? || cl.configs[|cl.layers|].digest !in w.store
    case Compile => fate.Served? && Unrecognised(c, cl)
    case NextLayer => false
    case AcquireLease => !fate.Served? || cl.engine in w.leases
    case Commit => !fate.Served? || !Accepts(w, cl)
    case LayerInfo => !fate.Served? || cl.configs[|cl.out|].digest !in w.store
    case LayerUpdate(_) => !fate.Served? || cl.configs[|cl.out|].digest !in w.store
    case ImageInfo => !fate.Served? || cl.image !in w.store
    case ImageUpdate(_) => !fate.Served? || cl.image !in w.store
    case Release => false
    case Dropping => false
    case Finished(_) => false
  }

  /** The load meets a layer its engine does not recognise, a taken lease, or an upload that cannot be completed. */
  ghost predicate Blocked(c: Compiler, w: World, cl: Client) {
    || (cl.pc.Compile? && Unrecognised(c, cl))
    || (cl.pc.AcquireLease? && cl.engine in w.leases)
    || (cl.pc.Commit? && !Accepts(w, cl))
  }

  ghost predicate Present(w: World, cl: Client) {
    cl.image in w.store && forall i :: 0 <= i < |cl.configs| ==> cl.configs[i].digest in w.store
  }

  /** A layer read from the cache is recognised, and so was its original. */
  lemma CompileRefused(c: Compiler, cl: Client)
    requires OwnOutput(c) && ClientInv(c, cl) && cl.pc.Compile?
    ensures |CompileAll(c, cl.engine, cl.layers)| != |cl.layers| <==> Unrecognised(c, cl)
  {
    Alignment(c, cl.engine, cl.layers);
    forall i | 0 <= i < |cl.configs|
      ensures c(cl.engine, cl.layers[i].data).Unknown? <==> c(cl.engine, cl.configs[i].digest.blob).Unknown?
    {
      if cl.layers[i].data != cl.configs[i].digest.blob {
        assert IsCode(c, cl.engine, cl.configs[i].digest.blob, cl.layers[i].data);
      }
    }
  }

  lemma TurnFails(c: Compiler, w: World, me: nat, cl: Client, fate: Fate)
    requires OwnOutput(c) && ClientInv(c, cl) && HolderOk(w, me, cl)
    ensures Failing(Continue(c, w, cl, fate.Served?).pc) <==> Failing(cl.pc) || FailsAt(c, w, cl, fate)
  {
    if cl.pc.Compile? {
      CompileRefused(c, cl);
    } else if Saving(cl.pc) {
      SavingFails(c, w, cl, fate);
    } else {
      OtherFails(c, w, cl, fate);
    }
  }

  lemma SavingFails(c: Compiler, w: World, cl: Client, fate: Fate)
    requires Saving(cl.pc) && (cl.pc.Commit? ==> cl.engine in w.leases)
    ensures Failing(Continue(c, w, cl, fate.Served?).pc) <==> FailsAt(c, w, cl, fate)
  {
  }

  lemma OtherFails(c: Compiler, w: World, cl: Client, fate: Fate)
    requires !Saving(cl.pc) && !cl.pc.Compile?
    ensures Failing(Continue(c, w, cl, fate.Served?).pc) <==> Failing(cl.pc) || FailsAt(c, w, cl, fate)
  {
  }

  lemma ServedTurnFails(c: Compiler, w: World, me: nat, cl: Client)
    requires OwnOutput(c) && ClientInv(c, cl) && HolderOk(w, me, cl) && Present(w, cl)
    ensures Failing(Continue(c, w, cl, true).pc) <==> Failing(cl.pc) || Blocked(c, w, cl)
  {
    TurnFails(c, w, me, cl, Served);
  }

  /** The action makes the load of client `me` fail. */
  function FailsOf(c: Compiler, me: nat): Happening {
    (w: World, a: Action) =>
      && me in w.clients && !w.clients[me].pc.Finished? && Own(me, a)
      && (a.Turn? ==> FailsAt(c, w, w.clients[me], a.fate))
  }

  lemma ActionFails(c: Compiler, w: World, a: Action, me: nat)
    requires OwnOutput(c) && Inv(c, w) && me in w.clients
    ensures me in Do(c, w, a).clients
    ensures Failing(Do(c, w, a).clients[me].pc) <==> Failing(w.clients[me].pc) || FailsOf(c, me)(w, a)
  {
    ClientAfter(c, w, a, me);
    assert ClientInv(c, w.clients[me]) && HolderOk(w, me, w.clients[me]);
    if a.Turn? && a.me == me { TurnFails(c, w, me, w.clients[me], a.fate); }
  }

  lemma SpawnedDoesNotFail(c: Compiler, w: World, a: Action, me: nat)
    requires me !in w.clients
    ensures me in Do(c, w, a).clients ==> !Failing(Do(c, w, a).clients[me].pc) && !FellBack(Do(c, w, a).clients[me])
  {
  }

  /**
   In every run of any clients and engines, whatever becomes of their messages: a load fails exactly
   when it dies or one of its requests meets what `FailsAt` says.
   */
  lemma {:induction false} LoadFailsExactly(c: Compiler, actions: seq<Action>, me: nat)
    requires OwnOutput(c)
    ensures var w := Exec(c, INIT, actions);
            if me in w.clients then Failing(w.clients[me].pc) <==> Ever(c, INIT, actions, FailsOf(c, me))
            else !Ever(c, INIT, actions, FailsOf(c, me))
  {
    if actions != [] {
      var n := |actions| - 1;
      var init, a := actions[..n], actions[n];
      var w := Exec(c, INIT, init);
      LoadFailsExactly(c, init, me);
      RunKeepsInv(c, INIT, init);
      EverSnoc(c, INIT, init, a, FailsOf(c, me));
      assert actions == init + [a];
      if me in w.clients { ActionFails(c, w, a, me); } else { SpawnedDoesNotFail(c, w, a, me); }
    }
  }

  /** The action is the failing compile call of client `me`. */
  function CompileErrs(me: nat): Happening {
    (w: World, a: Action) =>
      a.Turn? && a.me == me && me in w.clients && w.clients[me].pc.Compile? && !a.fate.Served?
  }

  predicate FellBack(cl: Client) {
    cl.pc.Finished? && cl.pc.result.Loaded? && cl.pc.result.compileFailed
  }

  lemma ActionFallsBack(c: Compiler, w: World, a: Action, me: nat)
    requires me in w.clients && (FellBack(w.clients[me]) ==> w.clients[me].pc.result.layers == w.clients[me].layers)
    ensures me in Do(c, w, a).clients
    ensures var cl := Do(c, w, a).clients[me];
            && (FellBack(cl) <==> FellBack(w.clients[me]) || CompileErrs(me)(w, a))
            && (FellBack(cl) ==> cl.pc.result.layers == cl.layers)
  {
    ClientAfter(c, w, a, me);
    if a.Turn? && a.me == me { TurnFallsBack(c, w, w.clients[me], a.fate.Served?); }
  }

  lemma TurnFallsBack(c: Compiler, w: World, cl: Client, ok: bool)
    requires FellBack(cl) ==> cl.pc.result.layers == cl.layers
    ensures var next := Continue(c, w, cl, ok);
            && (FellBack(next) <==> FellBack(cl) || (cl.pc.Compile? && !ok))
            && (FellBack(next) ==> next.pc.result.layers == next.layers)
  {
  }

  /**
   An error of the compile call does not fail the load: in every run, a load whose compile call erred
   ends there and then and returns exactly the layers it has read.
   */
  lemma {:induction false} CompileErrorReturnsTheLayers(c: Compiler, actions: seq<Action>, me: nat)
    ensures var w := Exec(c, INIT, actions);
            if me in w.clients then
              && (FellBack(w.clients[me]) <==> Ever(c, INIT, actions, CompileErrs(me)))
              && (FellBack(w.clients[me]) ==> w.clients[me].pc.result.layers == w.clients[me].layers)
            else !Ever(c, INIT, actions, CompileErrs(me))
  {
    if actions != [] {
      var n := |actions| - 1;
      var init, a := actions[..n], actions[n];
      var w := Exec(c, INIT, init);
      CompileErrorReturnsTheLayers(c, init, me);
      EverSnoc(c, INIT, init, a, CompileErrs(me));
      assert actions == init + [a];
      if me in w.clients { ActionFallsBack(c, w, a, me); } else { SpawnedDoesNotFail(c, w, a, me); }
    }
  }

  lemma ServedTurnCompiles(c: Compiler, w: World, cl: Client)
    requires cl.pc.Finished? && cl.pc.result.Loaded? ==> !cl.pc.result.compileFailed
    ensures var next := Continue(c, w, cl, true).pc;
            next.Finished? && next.result.Loaded? ==> !next.result.compileFailed
  {
  }

  /** Client `me`'s requests are served and find the image and its layers. */
  ghost predicate WellServed(c: Compiler, w: World, me: nat, actions: seq<Action>) {
    forall n :: 0 <= n < |actions| && Own(me, actions[n]) ==>
      var before := Exec(c, w, actions[..n]);
      actions[n].Turn? && actions[n].fate.Served? && me in before.clients && Present(before, before.clients[me])
  }

  ghost predicate BlockedAt(c: Compiler, w: World, me: nat, actions: seq<Action>, n: nat)
    requires n < |actions|
  {
    var before := Exec(c, w, actions[..n]);
    actions[n].Turn? && actions[n].me == me && me in before.clients && Blocked(c, before, before.clients[me])
  }

  /**
   With its requests served and its content present, whatever other clients and engines do: a load
   fails exactly when it meets a layer its engine does not recognise, the lease in other hands or a
   left-over upload that is no prefix of a new blob, and otherwise it succeeds within 11n + 4 requests.
   */
  lemma {:induction false} ServedLoadFailsExactly(c: Compiler, w: World, me: nat, actions: seq<Action>)
    requires OwnOutput(c) && Inv(c, w) && me in w.clients && w.clients[me].pc.CheckImage?
    requires WellServed(c, w, me, actions)
    ensures var cl := Exec(c, w, actions).clients;
            && me in cl
            && (Failing(cl[me].pc) <==> exists n :: 0 <= n < |actions| && BlockedAt(c, w, me, actions, n))
            && (cl[me].pc.Finished? && cl[me].pc.result.Loaded? ==> !cl[me].pc.result.compileFailed)
  {
    if actions != [] {
      var k := |actions| - 1;
      var before, a := Exec(c, w, actions[..k]), actions[k];
      assert forall n :: 0 <= n <= k ==> actions[..k][..n] == actions[..n];
      ServedLoadFailsExactly(c, w, me, actions[..k]);
      RunKeepsInv(c, w, actions[..k]);
      ClientAfter(c, before, a, me);
      BlockedSnoc(c, w, me, actions);
      if a.Turn? && a.me == me {
        assert ClientInv(c, before.clients[me]) && HolderOk(before, me, before.clients[me]);
        ServedTurnFails(c, before, me, before.clients[me]);
        ServedTurnCompiles(c, before, before.clients[me]);
      }
    }
  }

  lemma BlockedSnoc(c: Compiler, w: World, me: nat, actions: seq<Action>)
    requires actions != []
    ensures var k := |actions| - 1;
            (exists n :: 0 <= n < |actions| && BlockedAt(c, w, me, actions, n)) <==>
            (exists n :: 0 <= n < k && BlockedAt(c, w, me, actions[..k], n)) || BlockedAt(c, w, me, actions, k)
  {
    var k := |actions| - 1;
    forall n | 0 <= n < k ensures BlockedAt(c, w, me, actions, n) <==> BlockedAt(c, w, me, actions[..k], n) {
      assert actions[..k][..n] == actions[..n];
    }
  }

  // ----- a leaked lease -----

  lemma StepStaysLeaked(c: Compiler, w: World, a: Action, e: Engine)
    requires Inv(c, w) && Leaked(w, e)
    ensures Leaked(Do(c, w, a), e)
  {
    if a.Turn? && a.me in w.clients {
      LeaseLeaksExactlyWhenLost(c, w, a.me, a.fate, e);
    } else if a.Crash? && a.me in w.clients {
      CrashLeaks(c, w, a.me, e);
    } else {
      OthersLeakNothing(c, w, a, e);
    }
  }

  /**
   Once a lease is leaked it stays so in every continuation of the run, and every load of that engine
   that has something to save fails, whatever becomes of its request for the lease.
   */
  lemma {:induction false} LeakedLeaseFailsLoads(
    c: Compiler, w: World, actions: seq<Action>, e: Engine, me: nat, fate: Fate)
    requires OwnOutput(c) && Inv(c, w) && Leaked(w, e)
    ensures Leaked(Exec(c, w, actions), e)
    ensures var w' := Exec(c, w, actions);
            me in w'.clients && w'.clients[me].engine == e && w'.clients[me].pc.AcquireLease? ==>
              Do(c, w', Turn(me, fate)).clients[me].pc == Finished(Failed)
  {
    if actions != [] {
      var n := |actions| - 1;
      LeakedLeaseFailsLoads(c, w, actions[..n], e, me, fate);
      RunKeepsInv(c, w, actions[..n]);
      StepStaysLeaked(c, Exec(c, w, actions[..n]), actions[n], e);
    }
  }
}
