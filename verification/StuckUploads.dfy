/**
 The reference of an upload is the engine's, so what a cut off upload of one blob leaves behind stands in
 the way of every other blob of that engine.
 */
module StuckUploads {
  import opened Content
  import opened Uploads
  import opened PrecompileCache

  /** The request uploads a blob that is not there yet. */
  predicate SendsNew(w: World, cl: Client, e: Engine) {
    cl.pc.Commit? && cl.engine == e && e in w.leases && Sha256(Current(cl)) !in w.store
  }

  /** The action stores a blob of engine `e` that starts like the left-over upload, or an empty one. */
  function Clears(e: Engine): Happening {
    (w: World, a: Action) =>
      && a.Turn? && a.me in w.clients && TakesEffect(a.fate)
      && SendsNew(w, w.clients[a.me], e) && Accepts(w, w.clients[a.me])
  }

  /** What an action leaves of the upload: nothing, the same, or the same and more. */
  lemma LeftOverAfter(c: Compiler, w: World, a: Action, e: Engine)
    ensures Clears(e)(w, a) ==> LeftOver(Do(c, w, a), e) == []
    ensures !Clears(e)(w, a) ==> LeftOver(w, e) <= LeftOver(Do(c, w, a), e)
  {
    if a.Turn? {
      if a.me in w.clients { TurnLeftOver(c, w, a.me, a.fate, e); }
    } else {
      assert Do(c, w, a).uploads == w.uploads;
    }
  }

  lemma TurnLeftOver(c: Compiler, w: World, me: nat, fate: Fate, e: Engine)
    requires me in w.clients
    ensures var w', cl := ClientTurn(c, w, me, fate), w.clients[me];
            if TakesEffect(fate) && SendsNew(w, cl, e) && Accepts(w, cl) then LeftOver(w', e) == []
            else LeftOver(w, e) <= LeftOver(w', e)
  {
    var cl := w.clients[me];
    if cl.pc.Commit? {
      if cl.engine in w.leases { CommitLeftOver(w, cl, e); }
      if fate.Cut? { CutLeftOver(w, cl, fate.end, e); }
    } else {
      OthersLeaveUploads(w, me, cl);
    }
  }

  lemma OthersLeaveUploads(w: World, me: nat, cl: Client)
    requires !cl.pc.Commit?
    ensures Effect(w, me, cl).uploads == w.uploads
  {
  }

  lemma CutLeftOver(w: World, cl: Client, end: nat, e: Engine)
    ensures LeftOver(w, e) <= LeftOver(CutOff(w, cl, end), e)
  {
  }

  lemma CommitLeftOver(w: World, cl: Client, e: Engine)
    requires cl.pc.Commit? && cl.engine in w.leases
    ensures if SendsNew(w, cl, e) && Accepts(w, cl) then LeftOver(CommitEffect(w, cl), e) == []
            else LeftOver(w, e) <= LeftOver(CommitEffect(w, cl), e)
  {
    CutLeftOver(w, cl, |Current(cl).bytes|, e);
  }

  /** The bytes of a cut off upload stay at the front of it exactly until a blob that starts with them is stored. */
  lemma StuckStep(c: Compiler, w: World, a: Action, e: Engine, left: Bytes)
    requires left != [] && left <= LeftOver(w, e)
    ensures left <= LeftOver(Do(c, w, a), e) <==> !Clears(e)(w, a)
  {
    LeftOverAfter(c, w, a, e);
  }

  /** After the action the bytes are not at the front of the upload. */
  function Frees(c: Compiler, e: Engine, left: Bytes): Happening {
    (w: World, a: Action) => !(left <= LeftOver(Do(c, w, a), e))
  }

  /** Over any run of any clients and engines: they are gone at some time exactly when such a blob is stored. */
  lemma {:induction false} StuckExactly(c: Compiler, w: World, actions: seq<Action>, e: Engine, left: Bytes)
    requires left != [] && left <= LeftOver(w, e)
    ensures Ever(c, w, actions, Frees(c, e, left)) <==> Ever(c, w, actions, Clears(e))
    ensures !Ever(c, w, actions, Clears(e)) ==> left <= LeftOver(Exec(c, w, actions), e)
  {
    if actions != [] {
      var k := |actions| - 1;
      var init, a := actions[..k], actions[k];
      assert actions == init + [a];
      StuckExactly(c, w, init, e, left);
      EverSnoc(c, w, init, a, Clears(e));
      EverSnoc(c, w, init, a, Frees(c, e, left));
      if !Ever(c, w, init, Clears(e)) { StuckStep(c, Exec(c, w, init), a, e, left); }
    }
  }

  /**
   While they are there, every load of that engine that has a new blob to save fails unless the blob
   starts with them, however often it is tried and whatever becomes of its messages.
   */
  lemma StuckUploadFailsLoads(
    c: Compiler, w: World, actions: seq<Action>, e: Engine, left: Bytes, me: nat, fate: Fate)
    requires left != [] && left <= LeftOver(w, e) && !Ever(c, w, actions, Clears(e))
    requires var w' := Exec(c, w, actions);
             && me in w'.clients && SendsNew(w', w'.clients[me], e) && !Resumable(left, Current(w'.clients[me]).bytes)
    ensures var w', w'' := Exec(c, w, actions), Do(c, Exec(c, w, actions), Turn(me, fate));
            w''.clients[me].pc.Dropping? && w''.store == w'.store && left <= LeftOver(w'', e)
  {
    var w' := Exec(c, w, actions);
    StuckExactly(c, w, actions, e, left);
    var data := Current(w'.clients[me]).bytes;
    if Resumable(LeftOver(w', e), data) { LongerIsNoBetter(left, LeftOver(w', e), data); }
    StuckStep(c, w', Turn(me, fate), e, left);
  }
}
