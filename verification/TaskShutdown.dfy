/** Which instances a shim has accounted for when it shuts down. */
module TaskShutdown {
  import opened Options
  import opened TaskState
  import opened TaskService
  import opened TaskSafety

  /** The container id a create or delete request in flight works on. */
  function Claims(req: Request): Option<string> {
    match req
    case Begin(CreateCall(id)) => Some(id)
    case Begin(DeleteCall(id)) => Some(id)
    case CreateInsert(id) => Some(id)
    case DeleteLock(_, id) => Some(id)
    case DeleteRunning(_, id) => Some(id)
    case DeletePeek(_, id) => Some(id)
    case DeleteRemove(_, id, _) => Some(id)
    case _ => None
  }

  /** A create or delete only arrives when none is in flight for the same id. */
  ghost predicate Orderly(w: World, a: Action) {
    a.Receive? && (a.call.CreateCall? || a.call.DeleteCall?) ==>
      forall r :: r in w.requests ==> Claims(w.requests[r]) != Some(a.call.id)
  }

  ghost predicate OrderlyRun(actions: seq<Action>) {
    forall n :: 0 <= n < |actions| ==> Orderly(Exec(INIT, actions[..n]), actions[n])
  }

  predicate Live(w: World, k: nat)
    requires k < |w.all|
  {
    w.all[k].id in w.live && w.live[w.all[k].id] == k
  }

  /** An instance is live or was deleted successfully. */
  predicate Accounted(w: World, k: nat)
    requires k < |w.all|
  {
    Live(w, k) || w.all[k].deletes > 0
  }

  ghost predicate AllDeleted(w: World, n: nat) {
    n <= |w.all| && forall k :: 0 <= k < n ==> w.all[k].deletes > 0
  }

  ghost predicate ClaimOk(w: World, req: Request) {
    match req
    case CreateInsert(id) => id !in w.live
    case DeleteLock(k, id) => id in w.live && w.live[id] == k && k < |w.all| && w.all[k].deletes == 0
    case DeleteRunning(k, id) => id in w.live && w.live[id] == k && k < |w.all| && w.all[k].deletes == 0
    case DeletePeek(k, id) => id in w.live && w.live[id] == k && k < |w.all| && w.all[k].deletes > 0
    case DeleteRemove(k, id, _) => id in w.live && w.live[id] == k && k < |w.all| && w.all[k].deletes > 0
    case ShutdownSet(n) => AllDeleted(w, n)
    case _ => true
  }

  /** A delete of instance `k` has succeeded and has yet to remove it from the map. */
  ghost predicate Removing(w: World, k: nat) {
    exists r :: r in w.requests && Removes(w.requests[r], k)
  }

  predicate Removes(req: Request, k: nat) {
    (req.DeletePeek? || req.DeleteRemove?) && req.k == k
  }

  /** At most one request claims an id, and its claim is good. */
  ghost predicate ClaimsOk(w: World) {
    && (forall r, s | r in w.requests && s in w.requests ::
          Claims(w.requests[r]).Some? && Claims(w.requests[r]) == Claims(w.requests[s]) ==> r == s)
    && (forall r :: r in w.requests ==> ClaimOk(w, w.requests[r]))
  }

  /** Instances are deleted at most once, and are live and deleted only while being removed. */
  ghost predicate CountsOk(w: World) {
    forall k :: 0 <= k < |w.all| ==>
      w.all[k].deletes <= 1 && (Live(w, k) && w.all[k].deletes > 0 ==> Removing(w, k))
  }

  ghost predicate LiveOk(w: World) {
    forall id :: id in w.live ==> w.live[id] < |w.all| && w.all[w.live[id]].id == id
  }

  ghost predicate AllAccounted(w: World) {
    forall k :: 0 <= k < |w.all| ==> Accounted(w, k)
  }

  ghost predicate Conserved(w: World) {
    ClaimsOk(w) && CountsOk(w) && LiveOk(w) && AllAccounted(w) && (w.exit.Some? ==> AllDeleted(w, w.exit.value))
  }

  /** What a step does to the instance map: only its own id changes. */
  lemma StepMaps(w: World, r: nat, req: Request, ok: bool, value: nat)
    requires RefersTo(req, |w.all|)
    ensures var w' := StepOn(w, r, req, ok, value);
            w'.live == match req
                       case CreateInsert(id) => if ok then w.live[id := |w.all|] else w.live
                       case DeleteRemove(_, id, _) => w.live - {id}
                       case _ => w.live
    ensures var w' := StepOn(w, r, req, ok, value);
            |w'.all| == |w.all| + (if req.CreateInsert? && ok then 1 else 0)
            && (req.CreateInsert? && ok ==> w'.all[|w.all|].id == req.id)
    ensures var w' := StepOn(w, r, req, ok, value);
            w'.exit == if req.ShutdownSet? && w.exit.None? then Some(req.inserted) else w.exit
  {
  }

  lemma NobodyLive(w: World)
    requires w.live == map[] && AllAccounted(w)
    ensures AllDeleted(w, |w.all|)
  {
    forall k | 0 <= k < |w.all| ensures w.all[k].deletes > 0 {
      assert Accounted(w, k);
    }
  }

  lemma OwnDelete(w: World, r: nat, req: Request, ok: bool, value: nat)
    requires RefersTo(req, |w.all|) && ClaimOk(w, req)
    requires req.DeleteLock? || req.DeleteRunning? || req.DeletePeek? || req.DeleteRemove?
    ensures var w' := StepOn(w, r, req, ok, value);
            w' == w || (r in w'.requests && ClaimOk(w', w'.requests[r])
                        && (Claims(w'.requests[r]).None? || Claims(w'.requests[r]) == Claims(req)))
  {
  }

  lemma OwnClaim(w: World, r: nat, req: Request, ok: bool, value: nat)
    requires RefersTo(req, |w.all|) && ClaimOk(w, req)
    requires w.live == map[] ==> AllDeleted(w, |w.all|)
    requires req.Begin? && req.call.DeleteCall? && req.call.id in w.live ==>
               w.live[req.call.id] < |w.all| && w.all[w.live[req.call.id]].deletes == 0
    ensures var w' := StepOn(w, r, req, ok, value);
            w' == w || (r in w'.requests && ClaimOk(w', w'.requests[r])
                        && (Claims(w'.requests[r]).None? || Claims(w'.requests[r]) == Claims(req)))
  {
    if req.DeleteLock? || req.DeleteRunning? || req.DeletePeek? || req.DeleteRemove? {
      OwnDelete(w, r, req, ok, value);
    }
  }

  lemma StepDeletes(w: World, r: nat, req: Request, ok: bool, value: nat, k: nat)
    requires RefersTo(req, |w.all|) && k < |StepOn(w, r, req, ok, value).all|
    ensures StepOn(w, r, req, ok, value).all[k].deletes ==
            if k >= |w.all| then 0
            else if req.DeleteRunning? && req.k == k && ok then w.all[k].deletes + 1
            else w.all[k].deletes
  {
  }

  lemma RemovalsClaim(w: World, id: string)
    requires ClaimsOk(w) && LiveOk(w) && id in w.live
    ensures forall x :: x in w.requests && Removes(w.requests[x], w.live[id]) ==> Claims(w.requests[x]) == Some(id)
  {
    forall x | x in w.requests && Removes(w.requests[x], w.live[id]) ensures Claims(w.requests[x]) == Some(id) {
      assert ClaimOk(w, w.requests[x]);
    }
  }

  /** A delete that begins finds an instance that was not deleted yet. */
  lemma BeginsUndeleted(w: World, r: nat, id: string)
    requires Conserved(w) && r in w.requests && w.requests[r] == Begin(DeleteCall(id)) && id in w.live
    ensures w.live[id] < |w.all| && w.all[w.live[id]].deletes == 0
  {
    assert Live(w, w.live[id]);
    RemovalsClaim(w, id);
  }

  /** Where a request that is about to remove an instance goes next. */
  lemma RemovalGoesOn(w: World, r: nat, req: Request, ok: bool, value: nat, k: nat)
    requires RefersTo(req, |w.all|) && k < |w.all|
    requires Removes(req, k) || (req.DeleteRunning? && req.k == k && ok)
    ensures var w' := StepOn(w, r, req, ok, value);
            req.DeleteRemove? || (r in w'.requests && Removes(w'.requests[r], k))
  {
  }

  lemma StillRemoving(w: World, r: nat, ok: bool, value: nat, k: nat)
    requires Inv(w) && Conserved(w) && r in w.requests && RefersTo(w.requests[r], |w.all|)
    requires AllEvolve(r, w, StepOn(w, r, w.requests[r], ok, value))
    requires var w' := StepOn(w, r, w.requests[r], ok, value);
             && k < |w'.all| && Live(w', k) && w'.all[k].deletes > 0
             && (forall x :: x in w.requests && x != r ==> x in w'.requests && w'.requests[x] == w.requests[x])
    ensures Removing(StepOn(w, r, w.requests[r], ok, value), k)
  {
    var req := w.requests[r];
    var w' := StepOn(w, r, req, ok, value);
    StepDeletes(w, r, req, ok, value, k);
    StepMaps(w, r, req, ok, value);
    assert Evolves(r, w.all[k], w'.all[k]);
    if req.DeleteRunning? && req.k == k && ok {
      RemovalGoesOn(w, r, req, ok, value, k);
    } else {
      assert Live(w, k);
      var x :| x in w.requests && Removes(w.requests[x], k);
      if x == r {
        assert ClaimOk(w, req);
        RemovalGoesOn(w, r, req, ok, value, k);
      } else {
        assert Removes(w'.requests[x], k);
      }
    }
  }

  lemma OthersClaim(w: World, r: nat, req: Request, ok: bool, value: nat, owned: Request)
    requires RefersTo(req, |w.all|) && AllEvolve(r, w, StepOn(w, r, req, ok, value))
    requires ClaimOk(w, owned) && (Claims(req).None? || Claims(req) != Claims(owned))
    requires ClaimOk(w, req) && LiveOk(w)
    ensures ClaimOk(StepOn(w, r, req, ok, value), owned)
  {
    StepMaps(w, r, req, ok, value);
    var w' := StepOn(w, r, req, ok, value);
    assert forall k :: 0 <= k < |w.all| ==> Evolves(r, w.all[k], w'.all[k]);
    if owned.DeleteLock? || owned.DeleteRunning? { StepDeletes(w, r, req, ok, value, owned.k); }
  }

  lemma StillAccounted(w: World, r: nat, req: Request, ok: bool, value: nat, k: nat)
    requires RefersTo(req, |w.all|) && AllEvolve(r, w, StepOn(w, r, req, ok, value)) && ClaimOk(w, req)
    requires k < |StepOn(w, r, req, ok, value).all| && (k < |w.all| ==> Accounted(w, k))
    ensures Accounted(StepOn(w, r, req, ok, value), k)
  {
    StepMaps(w, r, req, ok, value);
    if k < |w.all| {
      assert Evolves(r, w.all[k], StepOn(w, r, req, ok, value).all[k]);
    }
  }

  lemma StepCounts(w: World, r: nat, ok: bool, value: nat)
    requires Inv(w) && Conserved(w) && r in w.requests && RefersTo(w.requests[r], |w.all|)
    requires AllEvolve(r, w, StepOn(w, r, w.requests[r], ok, value))
    requires var w' := StepOn(w, r, w.requests[r], ok, value);
             forall x :: x in w.requests && x != r ==> x in w'.requests && w'.requests[x] == w.requests[x]
    ensures CountsOk(StepOn(w, r, w.requests[r], ok, value))
  {
    var req := w.requests[r];
    var w' := StepOn(w, r, req, ok, value);
    forall k | 0 <= k < |w'.all|
      ensures w'.all[k].deletes <= 1 && (Live(w', k) && w'.all[k].deletes > 0 ==> Removing(w', k))
    {
      assert ClaimOk(w, req);
      StepDeletes(w, r, req, ok, value, k);
      if Live(w', k) && w'.all[k].deletes > 0 { StillRemoving(w, r, ok, value, k); }
    }
  }

  lemma StepClaims(w: World, r: nat, ok: bool, value: nat)
    requires Inv(w) && Conserved(w) && r in w.requests && RefersTo(w.requests[r], |w.all|)
    requires AllEvolve(r, w, StepOn(w, r, w.requests[r], ok, value))
    ensures ClaimsOk(StepOn(w, r, w.requests[r], ok, value))
  {
    var req := w.requests[r];
    var w' := StepOn(w, r, req, ok, value);
    assert ClaimOk(w, req);
    StepTouches(w, r, ok, value);
    if w.live == map[] { NobodyLive(w); }
    if req.Begin? && req.call.DeleteCall? && req.call.id in w.live { BeginsUndeleted(w, r, req.call.id); }
    OwnClaim(w, r, req, ok, value);
    forall x | x in w'.requests ensures ClaimOk(w', w'.requests[x]) {
      if x != r {
        assert ClaimOk(w, w.requests[x]);
        OthersClaim(w, r, req, ok, value, w.requests[x]);
      }
    }
  }

  lemma StepLive(w: World, r: nat, req: Request, ok: bool, value: nat)
    requires LiveOk(w) && RefersTo(req, |w.all|) && AllEvolve(r, w, StepOn(w, r, req, ok, value))
    ensures LiveOk(StepOn(w, r, req, ok, value))
  {
    var w' := StepOn(w, r, req, ok, value);
    StepMaps(w, r, req, ok, value);
    forall id | id in w'.live ensures w'.live[id] < |w'.all| && w'.all[w'.live[id]].id == id {
      if id in w.live && w'.live[id] == w.live[id] {
        assert Evolves(r, w.all[w.live[id]], w'.all[w.live[id]]);
      }
    }
  }

  lemma StepExit(w: World, r: nat, req: Request, ok: bool, value: nat)
    requires RefersTo(req, |w.all|) && AllEvolve(r, w, StepOn(w, r, req, ok, value)) && ClaimOk(w, req)
    requires w.exit.Some? ==> AllDeleted(w, w.exit.value)
    ensures var w' := StepOn(w, r, req, ok, value); w'.exit.Some? ==> AllDeleted(w', w'.exit.value)
  {
    var w' := StepOn(w, r, req, ok, value);
    StepMaps(w, r, req, ok, value);
    if w'.exit.Some? {
      assert AllDeleted(w, w'.exit.value);
      assert forall k :: 0 <= k < |w.all| ==> Evolves(r, w.all[k], w'.all[k]);
    }
  }

  lemma StepConserves(w: World, r: nat, ok: bool, value: nat)
    requires Inv(w) && Conserved(w) && r in w.requests
    ensures RefersTo(w.requests[r], |w.all|)
    ensures Conserved(StepOn(w, r, w.requests[r], ok, value))
  {
    var req := w.requests[r];
    assert RequestInv(w, r, req) && ClaimOk(w, req);
    StepEvolves(w, r, ok, value);
    StepTouches(w, r, ok, value);
    StepClaims(w, r, ok, value);
    StepCounts(w, r, ok, value);
    StepLive(w, r, req, ok, value);
    StepExit(w, r, req, ok, value);
    forall k | 0 <= k < |StepOn(w, r, req, ok, value).all| ensures Accounted(StepOn(w, r, req, ok, value), k) {
      StillAccounted(w, r, req, ok, value, k);
    }
  }

  lemma ReceiveConserves(w: World, r: nat, call: Call)
    requires Conserved(w) && Orderly(w, Receive(r, call)) && r !in w.requests
    ensures Conserved(SetRequest(w, r, Begin(call)))
  {
    var w' := SetRequest(w, r, Begin(call));
    forall x | x in w'.requests ensures ClaimOk(w', w'.requests[x]) {
      if x != r { assert ClaimOk(w, w.requests[x]); }
    }
    forall k | 0 <= k < |w'.all| ensures Accounted(w', k) {
      assert Accounted(w, k);
    }
    StillCounts(w, w');
  }

  lemma ExitConserves(w: World, k: nat, i: Instance)
    requires Conserved(w) && k < |w.all| && i.id == w.all[k].id && i.deletes == w.all[k].deletes
    ensures Conserved(SetInstance(w, k, i))
  {
    var w' := SetInstance(w, k, i);
    forall x | x in w'.requests ensures ClaimOk(w', w'.requests[x]) {
      assert ClaimOk(w, w.requests[x]);
    }
    forall j | 0 <= j < |w'.all| ensures Accounted(w', j) {
      assert Accounted(w, j);
    }
    StillCounts(w, w');
  }

  /** Steps that delete nothing and drop no request keep the counts. */
  lemma StillCounts(w: World, w': World)
    requires CountsOk(w) && |w'.all| == |w.all| && w'.live == w.live
    requires forall k :: 0 <= k < |w.all| ==> w'.all[k].deletes == w.all[k].deletes && w'.all[k].id == w.all[k].id
    requires forall x :: x in w.requests ==> x in w'.requests && w'.requests[x] == w.requests[x]
    ensures CountsOk(w')
  {
    forall k | 0 <= k < |w'.all| && Live(w', k) && w'.all[k].deletes > 0 ensures Removing(w', k) {
      assert Live(w, k);
      var x :| x in w.requests && Removes(w.requests[x], k);
      assert Removes(w'.requests[x], k);
    }
  }

  lemma DoConserves(w: World, a: Action)
    requires Inv(w) && Conserved(w) && Orderly(w, a)
    ensures Conserved(Do(w, a))
  {
    match a
    case Receive(r, call) => if r !in w.requests { ReceiveConserves(w, r, call); }
    case Step(r, ok, value) => if r in w.requests { StepConserves(w, r, ok, value); }
    case ProcessExit(k, v) => if k < |w.all| { ExitConserves(w, k, w.all[k].(exit := Some(v))); }
  }

  lemma {:induction false} RunConserves(actions: seq<Action>)
    requires OrderlyRun(actions)
    ensures Inv(Exec(INIT, actions)) && Conserved(Exec(INIT, actions))
  {
    RunKeepsInv(actions);
    if actions != [] {
      var n := |actions| - 1;
      assert OrderlyRun(actions[..n]) by {
        forall m | 0 <= m < n ensures Orderly(Exec(INIT, actions[..n][..m]), actions[..n][m]) {
          assert actions[..n][..m] == actions[..m];
        }
      }
      RunConserves(actions[..n]);
      DoConserves(Exec(INIT, actions[..n]), actions[n]);
    }
  }

  /** The instances that are not in the map any more. */
  ghost function Gone(w: World): set<nat> {
    set k | 0 <= k < |w.all| && !Live(w, k)
  }

  function Below(n: nat): (r: set<nat>)
    ensures forall k: nat :: k in r <==> k < n
    ensures |r| == n
  {
    if n == 0 then {} else Below(n - 1) + {n - 1}
  }

  lemma {:induction false} DifferentValues(m: map<string, nat>)
    requires forall x, y :: x in m && y in m && m[x] == m[y] ==> x == y
    ensures |m.Values| == |m|
  {
    if m != map[] {
      var x :| x in m;
      var rest := m - {x};
      DifferentValues(rest);
      assert m.Keys == rest.Keys + {x};
      assert m.Values == rest.Values + {m[x]} by {
        forall v | v in m.Values ensures v in rest.Values + {m[x]} {
          var y :| y in m && m[y] == v;
          if y != x { assert rest[y] == v; }
        }
      }
    }
  }

  /** Inserted instances are those in the map and those gone from it. */
  lemma LivePlusGone(w: World)
    requires LiveOk(w)
    ensures |w.all| == |w.live| + |Gone(w)|
  {
    DifferentValues(w.live);
    assert Below(|w.all|) == w.live.Values + Gone(w) by {
      forall k | k in Below(|w.all|) ensures k in w.live.Values || k in Gone(w) {
        if Live(w, k) { assert w.live[w.all[k].id] == k; }
      }
      LiveBelow(w);
    }
    assert w.live.Values !! Gone(w) by {
      forall k | k in w.live.Values ensures k !in Gone(w) {
        var id :| id in w.live && w.live[id] == k;
      }
    }
  }

  lemma LiveBelow(w: World)
    requires LiveOk(w)
    ensures forall k :: k in w.live.Values ==> k < |w.all|
  {
  }

  /**
   When creates and deletes of one id do not overlap: inserted instances equal live plus gone ones,
   an instance is gone only after exactly one successful delete, a live one was deleted only if that
   delete is about to remove it, and the shim's exit is set only after a check that found all deleted.
   */
  lemma ShutdownConservation(actions: seq<Action>)
    requires OrderlyRun(actions)
    ensures var w := Exec(INIT, actions);
            && |w.all| == |w.live| + |Gone(w)|
            && (forall k :: k in Gone(w) ==> w.all[k].deletes == 1)
            && (forall k :: 0 <= k < |w.all| && Live(w, k) ==>
                  w.all[k].deletes <= 1 && (w.all[k].deletes == 1 <==> Removing(w, k)))
            && (w.exit.Some? ==> AllDeleted(w, w.exit.value))
            && (w.live == map[] ==> AllDeleted(w, |w.all|))
  {
    var w := Exec(INIT, actions);
    RunConserves(actions);
    LivePlusGone(w);
    if w.live == map[] { NobodyLive(w); }
    forall k | 0 <= k < |w.all| && Live(w, k)
      ensures w.all[k].deletes <= 1 && (w.all[k].deletes == 1 <==> Removing(w, k))
    {
      if Removing(w, k) {
        var r :| r in w.requests && Removes(w.requests[r], k);
        assert ClaimOk(w, w.requests[r]);
      }
    }
    forall k | k in Gone(w) ensures w.all[k].deletes == 1 {
      assert Accounted(w, k);
    }
  }

  // ----- in every run: exactly how an instance is lost -----

  /** The action inserts or removes the map entry of `id`. */
  predicate Clobbers(w: World, a: Action, id: string) {
    && a.Step? && a.r in w.requests && RefersTo(w.requests[a.r], |w.all|)
    && (|| (w.requests[a.r] == CreateInsert(id) && a.ok)
        || (w.requests[a.r].DeleteRemove? && w.requests[a.r].id == id))
  }

  lemma ActionKeepsInstance(w: World, a: Action, k: nat)
    requires Inv(w) && k < |w.all|
    ensures k < |Do(w, a).all| && Do(w, a).all[k].id == w.all[k].id && Do(w, a).all[k].deletes >= w.all[k].deletes
  {
    if a.Step? && a.r in w.requests {
      StepEvolves(w, a.r, a.ok, a.value);
      assert Evolves(a.r, w.all[k], Do(w, a).all[k]);
    }
  }

  lemma LiveAfter(w: World, a: Action, k: nat)
    requires Inv(w) && k < |w.all| && k < |Do(w, a).all|
    ensures Live(Do(w, a), k) <==> Live(w, k) && !Clobbers(w, a, w.all[k].id)
  {
    ActionKeepsInstance(w, a, k);
    if a.Step? && a.r in w.requests && RefersTo(w.requests[a.r], |w.all|) {
      StepMaps(w, a.r, w.requests[a.r], a.ok, a.value);
    }
  }

  /** An accounted instance is lost by an action exactly when it was not deleted and its map entry is clobbered. */
  lemma LostByExactly(w: World, a: Action, k: nat)
    requires Inv(w) && k < |w.all| && Accounted(w, k)
    ensures k < |Do(w, a).all|
    ensures !Accounted(Do(w, a), k) <==> Do(w, a).all[k].deletes == 0 && Clobbers(w, a, w.all[k].id)
    ensures Clobbers(w, a, w.all[k].id) ==> (Do(w, a).all[k].deletes == 0 <==> w.all[k].deletes == 0)
  {
    ActionKeepsInstance(w, a, k);
    LiveAfter(w, a, k);
    if Clobbers(w, a, w.all[k].id) { StepDeletes(w, a.r, w.requests[a.r], a.ok, a.value, k); }
  }

  /** Some action since instance `k` was inserted clobbered its map entry. */
  ghost predicate EverClobbered(actions: seq<Action>, k: nat) {
    exists n :: 0 <= n < |actions| && ClobberedAt(actions, k, n)
  }

  ghost predicate ClobberedAt(actions: seq<Action>, k: nat, n: nat)
    requires n < |actions|
  {
    var w := Exec(INIT, actions[..n]);
    k < |w.all| && Clobbers(w, actions[n], w.all[k].id)
  }

  lemma ClobberedSnoc(actions: seq<Action>, k: nat)
    requires actions != []
    ensures var m := |actions| - 1;
            EverClobbered(actions, k) <==> EverClobbered(actions[..m], k) || ClobberedAt(actions, k, m)
  {
    var m := |actions| - 1;
    forall n | 0 <= n < m ensures ClobberedAt(actions, k, n) <==> ClobberedAt(actions[..m], k, n) {
      assert actions[..m][..n] == actions[..n];
    }
  }

  /** A new instance is live, and nothing about it happened before. */
  lemma NewIsLive(w: World, a: Action, k: nat)
    requires Inv(w) && |w.all| <= k < |Do(w, a).all|
    ensures Live(Do(w, a), k)
  {
    StepMaps(w, a.r, w.requests[a.r], a.ok, a.value);
  }

  lemma {:induction false} NotYetInserted(actions: seq<Action>, k: nat)
    requires k >= |Exec(INIT, actions).all|
    ensures !EverClobbered(actions, k)
  {
    if actions != [] {
      var m := |actions| - 1;
      RunKeepsInv(actions[..m]);
      var w := Exec(INIT, actions[..m]);
      if k < |w.all| { ActionKeepsInstance(w, actions[m], k); }
      NotYetInserted(actions[..m], k);
      ClobberedSnoc(actions, k);
    }
  }

  lemma {:induction false} LiveExactly(actions: seq<Action>, k: nat)
    requires k < |Exec(INIT, actions).all|
    ensures Live(Exec(INIT, actions), k) <==> !EverClobbered(actions, k)
  {
    var m := |actions| - 1;
    var w := Exec(INIT, actions[..m]);
    RunKeepsInv(actions[..m]);
    ClobberedSnoc(actions, k);
    if k < |w.all| {
      LiveExactly(actions[..m], k);
      LiveAfter(w, actions[m], k);
    } else {
      NotYetInserted(actions[..m], k);
      NewIsLive(w, actions[m], k);
    }
  }

  /**
   After any run, overlapping requests or not: an instance is lost, neither live nor deleted, exactly
   when its delete never succeeded and a create or a delete of its id has clobbered its map entry.  So
   a shutdown that finds no live instance leaves one undeleted exactly when that happened to one.
   */
  lemma InstanceIsLostExactly(actions: seq<Action>, k: nat)
    requires k < |Exec(INIT, actions).all|
    ensures var w := Exec(INIT, actions);
            && (!Accounted(w, k) <==> w.all[k].deletes == 0 && EverClobbered(actions, k))
            && (w.live == map[] ==> (w.all[k].deletes == 0 <==> !Accounted(w, k)))
  {
    LiveExactly(actions, k);
  }
}
