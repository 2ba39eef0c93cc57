/** Leases that outlive their client. */
module CacheLeases {
  import opened Options
  import opened Content
  import opened PrecompileCache
  import opened CacheCoherence

  /** The lease exists but no client is in its scope: nobody will delete it before it expires. */
  ghost predicate Leaked(w: World, e: Engine) {
    && e in w.leases
    && var owner := w.leases[e].owner;
       !(owner in w.clients && w.clients[owner].engine == e && HoldsLease(w.clients[owner].pc))
  }

  /** Does this turn lose track of a lease: the reply to its creation or the request to delete it is lost. */
  predicate LosesLease(w: World, cl: Client, fate: Fate) {
    || (cl.pc.AcquireLease? && cl.engine !in w.leases && fate.ReplyLost?)
    || ((cl.pc.Release? || cl.pc.Dropping?) && !TakesEffect(fate))
  }

  lemma HolderMoves(c: Compiler, w: World, cl: Client, ok: bool)
    requires HoldsLease(cl.pc)
    ensures HoldsLease(Continue(c, w, cl, ok).pc) <==> !cl.pc.Release? && !cl.pc.Dropping?
  {
  }

  lemma OutsiderMoves(c: Compiler, w: World, cl: Client, ok: bool)
    requires !HoldsLease(cl.pc)
    ensures HoldsLease(Continue(c, w, cl, ok).pc) <==> cl.pc.AcquireLease? && ok && cl.engine !in w.leases
  {
  }

  lemma LeasesAfter(w: World, me: nat, cl: Client, e: Engine)
    ensures e in Effect(w, me, cl).leases <==>
              || (e in w.leases && !((cl.pc.Release? || cl.pc.Dropping?) && e == cl.engine))
              || (cl.pc.AcquireLease? && e == cl.engine)
    ensures e in Effect(w, me, cl).leases ==>
              Effect(w, me, cl).leases[e].owner == if e in w.leases then w.leases[e].owner else me
  {
    match cl.pc
    case Commit => if cl.engine in w.leases { CommitLeavesLeases(w, cl, e); }
    case AcquireLease =>
    case Release =>
    case Dropping =>
    case _ => assert Effect(w, me, cl).leases == w.leases;
  }

  lemma CommitLeavesLeases(w: World, cl: Client, e: Engine)
    requires cl.pc.Commit? && cl.engine in w.leases
    ensures e in CommitEffect(w, cl).leases <==> e in w.leases
    ensures e in w.leases ==> CommitEffect(w, cl).leases[e].owner == w.leases[e].owner
  {
  }

  /** The leases after a turn, whatever became of its request. */
  lemma LeasesAfterTurn(c: Compiler, w: World, me: nat, fate: Fate, e: Engine)
    requires me in w.clients
    ensures var w', cl := ClientTurn(c, w, me, fate), w.clients[me];
            && (e in w'.leases <==>
                  || (e in w.leases && !((cl.pc.Release? || cl.pc.Dropping?) && e == cl.engine && TakesEffect(fate)))
                  || (cl.pc.AcquireLease? && e == cl.engine && TakesEffect(fate)))
            && (e in w'.leases ==> w'.leases[e].owner == if e in w.leases then w.leases[e].owner else me)
  {
    LeasesAfter(w, me, w.clients[me], e);
  }

  /**
   In any state a run can reach, a lease is leaked by a turn exactly when that turn loses track of it;
   every other way out of `save_content` and `load_modules` deletes the lease, and nothing un-leaks it.
   */
  lemma LeaseLeaksExactlyWhenLost(c: Compiler, w: World, me: nat, fate: Fate, e: Engine)
    requires Inv(c, w) && me in w.clients
    ensures Leaked(ClientTurn(c, w, me, fate), e) <==>
              Leaked(w, e) || (e == w.clients[me].engine && LosesLease(w, w.clients[me], fate))
  {
    var cl := w.clients[me];
    assert HolderOk(w, me, cl);
    LeasesAfterTurn(c, w, me, fate, e);
    ContinueFrame(c, w, cl, fate.Served?);
    if HoldsLease(cl.pc) {
      HolderMoves(c, w, cl, fate.Served?);
    } else {
      OutsiderMoves(c, w, cl, fate.Served?);
    }
  }

  /** A client that dies in the lease scope leaves its lease behind. */
  lemma CrashLeaks(c: Compiler, w: World, me: nat, e: Engine)
    requires Inv(c, w) && me in w.clients
    ensures Leaked(Do(c, w, Crash(me)), e) <==>
              Leaked(w, e) || (e == w.clients[me].engine && HoldsLease(w.clients[me].pc))
  {
    assert HolderOk(w, me, w.clients[me]);
  }

  lemma OthersLeakNothing(c: Compiler, w: World, a: Action, e: Engine)
    requires !((a.Turn? || a.Crash?) && a.me in w.clients)
    ensures Leaked(Do(c, w, a), e) <==> Leaked(w, e)
  {
    if e in w.leases && w.leases[e].owner in w.clients { ClientAfter(c, w, a, w.leases[e].owner); }
  }

  /** The action is a turn that loses track of the lease of engine `e`, or the crash of its holder. */
  function LosesLeaseOf(e: Engine): Happening {
    (w: World, a: Action) =>
      && (a.Turn? || a.Crash?) && a.me in w.clients && w.clients[a.me].engine == e
      && if a.Turn? then LosesLease(w, w.clients[a.me], a.fate) else HoldsLease(w.clients[a.me].pc)
  }

  /**
   After any run of any clients and engines a lease is leaked exactly when some turn of the run lost
   track of it or a client died in its scope: refused and cut off uploads, failed loads and collections
   leak nothing.
   */
  lemma {:induction false} LeaseIsLeakedExactly(c: Compiler, actions: seq<Action>, e: Engine)
    requires OwnOutput(c)
    ensures Leaked(Exec(c, INIT, actions), e) <==> Ever(c, INIT, actions, LosesLeaseOf(e))
  {
    if actions != [] {
      var n := |actions| - 1;
      var w, a := Exec(c, INIT, actions[..n]), actions[n];
      LeaseIsLeakedExactly(c, actions[..n], e);
      RunKeepsInv(c, INIT, actions[..n]);
      EverSnoc(c, INIT, actions[..n], a, LosesLeaseOf(e));
      assert actions == actions[..n] + [a];
      if a.Turn? && a.me in w.clients {
        LeaseLeaksExactlyWhenLost(c, w, a.me, a.fate, e);
      } else if a.Crash? && a.me in w.clients {
        CrashLeaks(c, w, a.me, e);
      } else {
        OthersLeakNothing(c, w, a, e);
      }
    }
  }
}
