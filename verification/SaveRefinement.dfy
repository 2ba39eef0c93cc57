/**
 `ContentWrite` opens up the steps in which a client of `PrecompileCache` takes the lease and uploads a
 blob: whatever happens to the messages of a save, what others see of it is the machine's own steps.
 */
module SaveRefinement {
  import opened Content
  import opened LabelKeys
  import opened PrecompileCache
  import opened CacheCoherence
  import CW = ContentWrite

  /** The server a save talks to holds the content, the leases and the partial uploads of the world. */
  ghost predicate Shows(w: World, s: CW.Server) {
    && s.content.Keys == w.store.Keys
    && (forall d :: d in w.store ==> s.content[d] == w.store[d].data)
    && (forall e :: ShowsEngine(w, s, e))
  }

  ghost predicate ShowsEngine(w: World, s: CW.Server, e: Engine) {
    && (e in w.leases <==> LeaseId(e) in s.leases)
    && (e in w.leases ==> s.leases[LeaseId(e)] == w.leases[e].pins)
    && LeftOver(w, e) == CW.UploadOf(s, LeaseId(e))
  }

  lemma LeaseStep(c: Compiler, w: World, me: nat, s: CW.Server, fate: Fate)
    requires me in w.clients && w.clients[me].pc.AcquireLease? && Shows(w, s)
    ensures var w', id := ClientTurn(c, w, me, fate), LeaseId(w.clients[me].engine);
            && Shows(w', CW.Leased(s, id, fate))
            && w'.clients[me] == w.clients[me].(pc := if fate.Served? && id !in s.leases then Commit else Finished(Failed))
  {
    var cl := w.clients[me];
    var w', s' := ClientTurn(c, w, me, fate), CW.Leased(s, LeaseId(cl.engine), fate);
    assert ShowsEngine(w, s, cl.engine);
    forall e ensures ShowsEngine(w', s', e) {
      LeaseIdInjective(e, cl.engine);
      assert ShowsEngine(w, s, e);
    }
  }

  /** The upload as a whole leaves the other engines alone. */
  lemma OtherEngines(w: World, w': World, s: CW.Server, cl: Client, data: Bytes, fate: Fate, e: Engine)
    requires ShowsEngine(w, s, e) && e != cl.engine
    requires e in w'.leases <==> e in w.leases
    requires e in w.leases ==> w'.leases[e] == w.leases[e]
    requires LeftOver(w', e) == LeftOver(w, e)
    ensures ShowsEngine(w', CW.Committed(s, LeaseId(cl.engine), data, fate), e)
  {
    LeaseIdInjective(e, cl.engine);
  }

  lemma CommitTurn(c: Compiler, w: World, me: nat, fate: Fate, e: Engine)
    requires me in w.clients && w.clients[me].pc.Commit? && w.clients[me].engine in w.leases && e != w.clients[me].engine
    ensures var w' := ClientTurn(c, w, me, fate);
            && (e in w'.leases <==> e in w.leases) && (e in w.leases ==> w'.leases[e] == w.leases[e])
            && LeftOver(w', e) == LeftOver(w, e)
  {
  }

  /** What the upload does to its own engine's lease and partial upload. */
  lemma OwnEngine(c: Compiler, w: World, me: nat, s: CW.Server, data: Bytes, fate: Fate)
    requires me in w.clients && w.clients[me].pc.Commit? && Current(w.clients[me]) == Raw(data)
    requires w.clients[me].engine in w.leases && s.content.Keys == w.store.Keys && ShowsEngine(w, s, w.clients[me].engine)
    ensures ShowsEngine(ClientTurn(c, w, me, fate), CW.Committed(s, LeaseId(w.clients[me].engine), data, fate), w.clients[me].engine)
  {
  }

  lemma CommitContent(c: Compiler, w: World, me: nat, s: CW.Server, data: Bytes, fate: Fate)
    requires me in w.clients && w.clients[me].pc.Commit? && Current(w.clients[me]) == Raw(data)
    requires w.clients[me].engine in w.leases && Shows(w, s)
    ensures var w', s' := ClientTurn(c, w, me, fate), CW.Committed(s, LeaseId(w.clients[me].engine), data, fate);
            s'.content.Keys == w'.store.Keys && forall d :: d in w'.store ==> s'.content[d] == w'.store[d].data
  {
    assert ShowsEngine(w, s, w.clients[me].engine);
  }

  lemma CommitStep(c: Compiler, w: World, me: nat, s: CW.Server, data: Bytes, fate: Fate)
    requires me in w.clients && w.clients[me].pc.Commit? && Current(w.clients[me]) == Raw(data)
    requires w.clients[me].engine in w.leases && Shows(w, s)
    ensures var w', id := ClientTurn(c, w, me, fate), LeaseId(w.clients[me].engine);
            && Shows(w', CW.Committed(s, id, data, fate))
            && w'.clients[me] == w.clients[me].(pc := if fate.Served? && CW.Completable(s, id, data) then LayerInfo else Dropping)
  {
    var cl := w.clients[me];
    var w', s' := ClientTurn(c, w, me, fate), CW.Committed(s, LeaseId(cl.engine), data, fate);
    assert ShowsEngine(w, s, cl.engine);
    CommitContent(c, w, me, s, data, fate);
    forall e ensures ShowsEngine(w', s', e) {
      if e == cl.engine {
        OwnEngine(c, w, me, s, data, fate);
      } else {
        assert ShowsEngine(w, s, e);
        CommitTurn(c, w, me, fate, e);
        OtherEngines(w, w', s, cl, data, fate, e);
      }
    }
  }

  lemma DropStep(c: Compiler, w: World, me: nat, s: CW.Server, fate: Fate)
    requires me in w.clients && w.clients[me].pc.Dropping? && Shows(w, s)
    ensures var w' := ClientTurn(c, w, me, fate);
            && Shows(w', CW.Dropped(s, LeaseId(w.clients[me].engine), fate))
            && w'.clients[me] == w.clients[me].(pc := Finished(Failed))
  {
    var w', s' := ClientTurn(c, w, me, fate), CW.Dropped(s, LeaseId(w.clients[me].engine), fate);
    forall e ensures ShowsEngine(w', s', e) {
      LeaseIdInjective(e, w.clients[me].engine);
      assert ShowsEngine(w, s, e);
    }
  }

  /** The turns of the machine a save amounts to: the lease, the upload as a whole, the drop of the lease. */
  ghost function TurnsOfSave(
    s: CW.Server, id: string, data: Bytes, faults: CW.Faults, from: nat, drop: Fate): seq<Fate>
  {
    if id in s.leases || !faults(from).Served? then [faults(from)]
    else
      var upload := CW.UploadFate(s, id, data, faults, from + 1);
      if CW.Saves(s, id, data, faults, from) then [faults(from), upload] else [faults(from), upload, drop]
  }

  function Take(c: Compiler, w: World, me: nat, fates: seq<Fate>): World
    requires me in w.clients
    decreases |fates|
  {
    if fates == [] then w else Take(c, ClientTurn(c, w, me, fates[0]), me, fates[1..])
  }

  /**
   What `save_content` does to containerd, for all data, leftover uploads and fates of its messages, is
   what the machine's turns do: on success the client goes on to label the layer, otherwise its load
   fails.
   */
  lemma SaveTakesMachineSteps(
    c: Compiler, w: World, me: nat, s: CW.Server, data: Bytes, faults: CW.Faults, from: nat, drop: Fate)
    requires me in w.clients && w.clients[me].pc.AcquireLease? && Current(w.clients[me]) == Raw(data)
    requires Shows(w, s)
    ensures var id := LeaseId(w.clients[me].engine);
            var w' := Take(c, w, me, TurnsOfSave(s, id, data, faults, from, drop));
            && Shows(w', CW.AfterSave(s, id, data, faults, from, drop))
            && me in w'.clients
            && w'.clients[me].pc == if CW.Saves(s, id, data, faults, from) then LayerInfo else Finished(Failed)
  {
    var id, lease := LeaseId(w.clients[me].engine), faults(from);
    LeaseStep(c, w, me, s, lease);
    if id in s.leases || !lease.Served? {
      TakeOne(c, w, me, lease);
    } else {
      var upload := CW.UploadFate(s, id, data, faults, from + 1);
      assert ShowsEngine(w, s, w.clients[me].engine);
      LeasedUpload(c, ClientTurn(c, w, me, lease), me, CW.Leased(s, id, lease), data, upload, drop);
      assert CW.Completable(CW.Leased(s, id, lease), id, data) == CW.Completable(s, id, data);
      if CW.Saves(s, id, data, faults, from) {
        TakeTwo(c, w, me, lease, upload);
      } else {
        TakeThree(c, w, me, lease, upload, drop);
      }
    }
  }

  /** The upload under the lease, followed by the drop of the lease unless it succeeds. */
  lemma LeasedUpload(c: Compiler, w: World, me: nat, s: CW.Server, data: Bytes, upload: Fate, drop: Fate)
    requires me in w.clients && w.clients[me].pc.Commit? && Current(w.clients[me]) == Raw(data)
    requires Shows(w, s) && w.clients[me].engine in w.leases
    ensures var id, w' := LeaseId(w.clients[me].engine), ClientTurn(c, w, me, upload);
            var s' := CW.Committed(s, id, data, upload);
            if upload.Served? && CW.Completable(s, id, data) then
              Shows(w', s') && w'.clients[me].pc == LayerInfo
            else
              && Shows(ClientTurn(c, w', me, drop), CW.Dropped(s', id, drop))
              && ClientTurn(c, w', me, drop).clients[me].pc == Finished(Failed)
  {
    var id := LeaseId(w.clients[me].engine);
    CommitStep(c, w, me, s, data, upload);
    if !(upload.Served? && CW.Completable(s, id, data)) {
      DropStep(c, ClientTurn(c, w, me, upload), me, CW.Committed(s, id, data, upload), drop);
    }
  }

  lemma TakeOne(c: Compiler, w: World, me: nat, f: Fate)
    requires me in w.clients
    ensures Take(c, w, me, [f]) == ClientTurn(c, w, me, f)
  {
    assert [f][1..] == [];
  }

  lemma TakeTwo(c: Compiler, w: World, me: nat, f: Fate, g: Fate)
    requires me in w.clients
    ensures Take(c, w, me, [f, g]) == ClientTurn(c, ClientTurn(c, w, me, f), me, g)
  {
    assert [f, g][1..] == [g];
    TakeOne(c, ClientTurn(c, w, me, f), me, g);
  }

  lemma TakeThree(c: Compiler, w: World, me: nat, f: Fate, g: Fate, h: Fate)
    requires me in w.clients
    ensures Take(c, w, me, [f, g, h]) == ClientTurn(c, ClientTurn(c, ClientTurn(c, w, me, f), me, g), me, h)
  {
    assert [f, g, h][1..] == [g, h];
    TakeTwo(c, ClientTurn(c, w, me, f), me, g, h);
  }
}
