/** The graceful drain of the HTTP proxy: `serve_conn`, its task tracker and its request ids. */
module HttpDrain {

  /** Where the accept loop is. */
  datatype Server = Accepting | Closing | Draining | Returned

  /** A tracked task: a connection, or the guest handler of a request. */
  datatype Task = Connection | Handler(request: nat)

  /**
   `running` are the unfinished tracked tasks; `pending` the connections inside `handle_request`
   that have not spawned their handler yet, with the request id; `ids` the ids handed out.
   */
  datatype World = World(
    server: Server, cancelled: bool, closed: bool,
    running: map<nat, Task>, pending: map<nat, nat>, nextId: nat, ids: seq<nat>)

  const INIT := World(Accepting, false, false, map[], map[], 0, [])

  const U64: nat := 0x1_0000_0000_0000_0000

  datatype Action =
    | Cancel
    | Accept(task: nat)               // a connection arrives and is spawned
    | LeaveLoop                       // the loop sees the cancellation
    | Close                           // tracker.close()
    | WaitDone                        // tracker.wait() returns
    | Request(task: nat)              // a connection starts handling a request
    | SpawnHandler(task: nat, handler: nat)
    | Finish(task: nat)

  function Do(w: World, a: Action): World {
    match a
    case Cancel => w.(cancelled := true)
    case Accept(t) =>
      if w.server.Accepting? && t !in w.running then w.(running := w.running[t := Connection]) else w
    case LeaveLoop => if w.server.Accepting? && w.cancelled then w.(server := Closing) else w
    case Close => if w.server.Closing? then w.(server := Draining, closed := true) else w
    case WaitDone =>
      if w.server.Draining? && w.closed && w.running == map[] then w.(server := Returned) else w
    case Request(t) =>
      // `fetch_add` on an AtomicU64 wraps around
      if t in w.running && w.running[t].Connection? && t !in w.pending then
        w.(pending := w.pending[t := w.nextId], ids := w.ids + [w.nextId], nextId := (w.nextId + 1) % U64)
      else w
    case SpawnHandler(t, h) =>
      if t in w.pending && t in w.running && h !in w.running then
        w.(running := w.running[h := Handler(w.pending[t])], pending := w.pending - {t})
      else w
    case Finish(t) => w.(running := w.running - {t}, pending := w.pending - {t})
  }

  function Exec(w: World, actions: seq<Action>): World {
    if actions == [] then w
    else Do(Exec(w, actions[..|actions| - 1]), actions[|actions| - 1])
  }

  /** Handlers are only spawned by connections that run, and returning means nothing runs. */
  ghost predicate Inv(w: World) {
    && (forall t :: t in w.pending ==> t in w.running && w.running[t].Connection?)
    && (w.server.Returned? ==> w.running == map[])
    && (w.server.Draining? || w.server.Returned? ==> w.closed)
    && w.nextId == |w.ids| % U64
    && (forall n :: 0 <= n < |w.ids| ==> w.ids[n] == n % U64)
  }

  lemma NextId(n: nat)
    ensures (n % U64 + 1) % U64 == (n + 1) % U64
  {
  }

  lemma DoKeepsInv(w: World, a: Action)
    requires Inv(w)
    ensures Inv(Do(w, a))
    ensures w.server.Returned? ==> Do(w, a).server.Returned? && Do(w, a).ids == w.ids
  {
    if a.Request? { NextId(|w.ids|); }
  }

  lemma {:induction false} RunKeepsInv(w: World, actions: seq<Action>)
    requires Inv(w)
    ensures Inv(Exec(w, actions))
    ensures w.server.Returned? ==> Exec(w, actions).server.Returned? && Exec(w, actions).ids == w.ids
  {
    if actions != [] {
      RunKeepsInv(w, actions[..|actions| - 1]);
      DoKeepsInv(Exec(w, actions[..|actions| - 1]), actions[|actions| - 1]);
    }
  }

  /**
   When `serve_conn` returns no connection and no guest handler is running, and in every continuation
   of the run none is started and no request is taken.
   */
  lemma DrainSafety(actions: seq<Action>, more: seq<Action>)
    requires Exec(INIT, actions).server.Returned?
    ensures Exec(INIT, actions).running == map[]
    ensures var later := Exec(Exec(INIT, actions), more);
            later.running == map[] && later.pending == map[] && later.ids == Exec(INIT, actions).ids
  {
    RunKeepsInv(INIT, actions);
    RunKeepsInv(Exec(INIT, actions), more);
  }

  /** Request ids are pairwise different exactly as long as no more than 2^64 were handed out. */
  lemma RequestIdsDistinct(actions: seq<Action>)
    ensures var ids := Exec(INIT, actions).ids;
            (forall m, n :: 0 <= m < n < |ids| ==> ids[m] != ids[n]) <==> |ids| <= U64
  {
    RunKeepsInv(INIT, actions);
    CountersDistinct(Exec(INIT, actions).ids);
  }

  lemma CountersDistinct(ids: seq<nat>)
    requires forall n :: 0 <= n < |ids| ==> ids[n] == n % U64
    ensures (forall m, n :: 0 <= m < n < |ids| ==> ids[m] != ids[n]) <==> |ids| <= U64
  {
    if |ids| > U64 {
      assert ids[0] == 0 && ids[U64] == 0;
    } else {
      assert forall n :: 0 <= n < |ids| ==> ids[n] == n;
    }
  }

  /** In every run a cancelled server returns once its tasks have finished: nothing else holds it up. */
  lemma DrainCompletes(actions: seq<Action>)
    requires var w := Exec(INIT, actions); w.cancelled && w.running == map[]
    ensures var w := Exec(INIT, actions);
            Do(Do(Do(w, LeaveLoop), Close), WaitDone) == w.(server := Returned, closed := true)
  {
    RunKeepsInv(INIT, actions);
  }

  /** While the server accepts, a connection that arrives is served. */
  lemma ConnectionsAreServed(actions: seq<Action>, t: nat)
    requires var w := Exec(INIT, actions); w.server.Accepting? && t !in w.running
    ensures var w := Exec(INIT, actions);
            Do(w, Accept(t)) == w.(running := w.running[t := Connection])
  {
  }

  /**
   In every run a request on an idle connection gets the number of requests before it as id, modulo
   2^64, and its handler is started, tracked and carries that id, also while the server drains.
   */
  lemma RequestsAreHandled(actions: seq<Action>, t: nat, h: nat)
    requires var w := Exec(INIT, actions);
             t in w.running && w.running[t].Connection? && t !in w.pending && h !in w.running
    ensures var w := Exec(INIT, actions);
            var w' := Do(Do(w, Request(t)), SpawnHandler(t, h));
            && w'.ids == w.ids + [|w.ids| % 0x1_0000_0000_0000_0000]
            && w'.running == w.running[h := Handler(|w.ids| % 0x1_0000_0000_0000_0000)]
            && w'.server == w.server && t !in w'.pending
  {
    RunKeepsInv(INIT, actions);
  }

  /** Cancelling is remembered and stops nothing by itself. */
  lemma CancelIsSeen(actions: seq<Action>)
    ensures Do(Exec(INIT, actions), Cancel) == Exec(INIT, actions).(cancelled := true)
  {
  }

  /** A task that finishes is no longer tracked, and nothing else changes for the others. */
  lemma FinishedIsUntracked(actions: seq<Action>, t: nat)
    ensures var w := Exec(INIT, actions);
            Do(w, Finish(t)).running == w.running - {t} && Do(w, Finish(t)).server == w.server
  {
  }
}
