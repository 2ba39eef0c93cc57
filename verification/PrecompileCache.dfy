/**
 The precompile cache of `Client::load_modules`, as a state machine whose steps are the requests a
 client sends to containerd.  Any number of clients run the same code; between any two of their
 requests containerd may collect garbage, content may be deleted, and images may be pulled or removed.
 */
module PrecompileCache {
  import opened Options
  import opened Content
  import opened Uploads

  /** What an engine does with one layer: compile it, leave it alone, or skip it unrecognised. */
  datatype Outcome = Code(code: Bytes) | Keep | Unknown

  type Compiler = (Engine, Blob) -> Outcome

  /** An engine recognises its own output and leaves it alone. */
  ghost predicate OwnOutput(c: Compiler) {
    forall e, b, o {:trigger IsCode(c, e, b, o)} :: IsCode(c, e, b, o) ==> c(e, o) == Keep
  }

  predicate IsCode(c: Compiler, e: Engine, original: Blob, code: Blob) {
    code.Raw? && c(e, original) == Code(code.bytes)
  }

  datatype Layer = Layer(config: Descriptor, data: Blob)

  /** The layers of a manifest whose media type the engine supports, in manifest order. */
  function WasmLayers(layers: seq<Descriptor>, supported: set<string>): (r: seq<Descriptor>)
    ensures forall x :: x in r <==> x in layers && x.mediaType in supported
  {
    if layers == [] then []
    else
      (if layers[0].mediaType in supported then [layers[0]] else []) + WasmLayers(layers[1..], supported)
  }

  /** The selection keeps manifest order: it works on the parts of a manifest separately. */
  lemma {:induction false} WasmLayersKeepOrder(xs: seq<Descriptor>, ys: seq<Descriptor>, supported: set<string>)
    ensures WasmLayers(xs + ys, supported) == WasmLayers(xs, supported) + WasmLayers(ys, supported)
  {
    if xs == [] {
      assert xs + ys == ys;
    } else {
      assert (xs + ys)[1..] == xs[1..] + ys;
      WasmLayersKeepOrder(xs[1..], ys, supported);
    }
  }

  /** Every supported layer is selected as often as it is listed, the others not at all. */
  lemma {:induction false} WasmLayersCount(layers: seq<Descriptor>, supported: set<string>, x: Descriptor)
    ensures multiset(WasmLayers(layers, supported))[x] == if x.mediaType in supported then multiset(layers)[x] else 0
  {
    if layers != [] {
      var rest := WasmLayers(layers[1..], supported);
      WasmLayersCount(layers[1..], supported, x);
      assert layers == [layers[0]] + layers[1..];
      assert multiset(layers)[x] == multiset([layers[0]])[x] + multiset(layers[1..])[x];
      if layers[0].mediaType in supported {
        assert multiset([layers[0]] + rest)[x] == multiset([layers[0]])[x] + multiset(rest)[x];
      } else {
        assert [] + rest == rest;
      }
    }
  }

  /** The entries `Compiler::compile` pushes: one per layer, except that unknown layers are skipped. */
  function CompileAll(c: Compiler, e: Engine, layers: seq<Layer>): seq<Option<Bytes>> {
    if layers == [] then []
    else
      var last := layers[|layers| - 1];
      CompileAll(c, e, layers[..|layers| - 1]) +
      match c(e, last.data)
      case Code(code) => [Some(code)]
      case Keep => [None]
      case Unknown => []
  }

  datatype LoadResult = Loaded(layers: seq<Layer>, compileFailed: bool) | Failed

  /** Where a client is in `load_modules`; the position in each loop is the length of its output so far. */
  datatype Pc =
    | CheckImage                      // get_info(image)
    | ReadInfo                        // read_precompiled_layer: get_info(layer)
    | ReadCached(cached: Digest)      // read_precompiled_layer: read_content(label)
    | ReadOriginal                    // read_original_layer
    | Compile
    | NextLayer                       // head of the save loop
    | AcquireLease                    // save_content: lease
    | Commit                          // save_content: stat, chunks and commit
    | LayerInfo                       // get_info(layer)
    | LayerUpdate(snapshot: Labels)   // update_info(layer)
    | ImageInfo                       // get_info(image)
    | ImageUpdate(snapshot: Labels)   // update_info(image)
    | Release                         // lease.release()
    | Dropping                        // an error inside the lease scope drops the guard
    | Finished(result: LoadResult)

  datatype ClientRecord = ClientRecord(
    engine: Engine,
    image: Digest,
    configs: seq<Descriptor>,
    pc: Pc,
    needsPrecompile: bool,
    layers: seq<Layer>,
    compiled: seq<Option<Bytes>>,
    out: seq<Layer>
  )

  /** Between `lease` and the release of the lease. */
  predicate HoldsLease(pc: Pc) {
    pc.Commit? || PastCommit(pc) || pc.Dropping?
  }

  /** The compiled blob is in the store and the lease is still held. */
  predicate PastCommit(pc: Pc) {
    pc.LayerInfo? || pc.LayerUpdate? || pc.ImageInfo? || pc.ImageUpdate? || pc.Release?
  }

  predicate Saving(pc: Pc) {
    pc.AcquireLease? || pc.Commit? || PastCommit(pc)
  }

  predicate Shape(cl: ClientRecord) {
    && |cl.layers| <= |cl.configs|
    && |cl.out| <= |cl.configs|
    && cl.image.blob.Manifest?
    && (cl.pc.CheckImage? ==> cl.configs != [] && cl.layers == [])
    && (cl.pc.ReadInfo? || cl.pc.ReadCached? || cl.pc.ReadOriginal? ==> |cl.layers| < |cl.configs|)
    && (cl.pc.Compile? ==> |cl.layers| == |cl.configs| && cl.out == [])
    && (cl.pc.NextLayer? || Saving(cl.pc) ==> |cl.compiled| == |cl.layers| == |cl.configs|)
    && (Saving(cl.pc) ==> |cl.out| < |cl.configs| && cl.compiled[|cl.out|].Some?)
  }

  const NO_CLIENT := ClientRecord(
    Engine("", 0), Sha256(Manifest(Sha256(Raw([])), [])), [], Finished(Failed), false, [], [], [])

  type Client = cl: ClientRecord | Shape(cl) witness NO_CLIENT

  datatype Entry = Entry(data: Blob, labels: Labels)

  type Store = map<Digest, Entry>

  datatype Lease = Lease(owner: nat, pins: set<Digest>)

  /**
   `leases` and `uploads` are keyed by engine because the lease id and the reference of an upload are
   "precompile-" followed by the precompile label.  `uploads` are the partial uploads, none of them
   empty.  `deleted` records which digests were ever deleted explicitly, as opposed to collected.
   */
  datatype World = World(
    store: Store,
    images: set<Digest>,
    leases: map<Engine, Lease>,
    clients: map<nat, Client>,
    deleted: set<Digest>,
    uploads: map<Engine, Bytes>
  )

  const INIT := World(map[], {}, map[], map[], {}, map[])

  datatype Action =
    | Spawn(me: nat, engine: Engine, image: Digest, supported: set<string>)
    | Turn(me: nat, fate: Fate)
    | Crash(me: nat)
    | Gc(live: set<Digest>)
    | Delete(digest: Digest)
    | Pull(image: Digest)
    | Untag(image: Digest)

  /** The compiled blob client `cl` is saving. */
  function Current(cl: Client): Blob
    requires Saving(cl.pc)
  {
    Raw(cl.compiled[|cl.out|].value)
  }

  /** The partial upload under the reference of an engine. */
  function LeftOver(w: World, e: Engine): Bytes {
    if e in w.uploads then w.uploads[e] else []
  }

  function SetLeftOver(w: World, e: Engine, upload: Bytes): World {
    w.(uploads := if upload == [] then w.uploads - {e} else w.uploads[e := upload])
  }

  /** containerd can store the blob: it is there, or the left-over upload can be completed to it. */
  predicate Accepts(w: World, cl: Client)
    requires Saving(cl.pc)
  {
    Sha256(Current(cl)) in w.store || Resumable(LeftOver(w, cl.engine), Current(cl).bytes)
  }

  /** The client side: what the code does with the reply, computed from the store the request met. */
  function Continue(c: Compiler, w: World, cl: Client, ok: bool): Client {
    match cl.pc
    case CheckImage =>
      if ok && cl.image in w.store then
        cl.(pc := ReadInfo, needsPrecompile := Precompile(cl.engine) !in w.store[cl.image].labels)
      else
        cl.(pc := Finished(Failed))
    case ReadInfo => AfterInfo(w, cl, ok)
    case ReadCached(cached) =>
      if ok && cached in w.store then PushLayer(cl, w.store[cached].data)
      else cl.(pc := ReadOriginal, needsPrecompile := true)
    case ReadOriginal =>
      var d := cl.configs[|cl.layers|].digest;
      if ok && d in w.store then PushLayer(cl, w.store[d].data)
      else cl.(pc := Finished(Failed))
    case Compile => AfterCompile(c, cl, ok)
    case NextLayer => AtLoopHead(cl)
    case Release =>
      cl.(pc := NextLayer, out := cl.out + [Layer(cl.configs[|cl.out|], Current(cl))])
    case Dropping => cl.(pc := Finished(Failed))
    case Finished(_) => cl
    case _ => cl.(pc := AfterSave(w, cl, ok))
  }

  /** `read_precompiled_layer` after its `get_info`. */
  function AfterInfo(w: World, cl: Client, ok: bool): Client
    requires cl.pc.ReadInfo?
  {
    var d := cl.configs[|cl.layers|].digest;
    var key := Precompile(cl.engine);
    if ok && d in w.store && key in w.store[d].labels && w.store[d].labels[key].Ref? then
      cl.(pc := ReadCached(w.store[d].labels[key].digest))
    else
      cl.(pc := ReadOriginal, needsPrecompile := true)
  }

  /** The compile call and the length check. */
  function AfterCompile(c: Compiler, cl: Client, ok: bool): Client
    requires cl.pc.Compile?
  {
    var compiled := CompileAll(c, cl.engine, cl.layers);
    if !ok then cl.(pc := Finished(Loaded(cl.layers, true)))
    else if |compiled| != |cl.layers| then cl.(pc := Finished(Failed))
    else cl.(pc := NextLayer, compiled := compiled)
  }

  /** The head of the save loop. */
  function AtLoopHead(cl: Client): Client
    requires cl.pc.NextLayer?
  {
    if |cl.out| == |cl.configs| then cl.(pc := Finished(Loaded(cl.out, false)))
    else if cl.compiled[|cl.out|].Some? then cl.(pc := AcquireLease)
    else cl.(out := cl.out + [cl.layers[|cl.out|]])
  }

  /** Where saving one layer goes on: the next request, or the way out. */
  function AfterSave(w: World, cl: Client, ok: bool): Pc
    requires Saving(cl.pc) && !cl.pc.Release?
  {
    var d := cl.configs[|cl.out|].digest;
    match cl.pc
    case AcquireLease => if ok && cl.engine !in w.leases then Commit else Finished(Failed)
    case Commit => if ok && cl.engine in w.leases && Accepts(w, cl) then LayerInfo else Dropping
    case LayerInfo => if ok && d in w.store then LayerUpdate(w.store[d].labels) else Dropping
    case LayerUpdate(_) => if ok && d in w.store then ImageInfo else Dropping
    case ImageInfo => if ok && cl.image in w.store then ImageUpdate(w.store[cl.image].labels) else Dropping
    case ImageUpdate(_) => if ok && cl.image in w.store then Release else Dropping
  }

  function PushLayer(cl: Client, data: Blob): Client
    requires |cl.layers| < |cl.configs|
  {
    var layers := cl.layers + [Layer(cl.configs[|cl.layers|], data)];
    if |layers| < |cl.configs| then cl.(pc := ReadInfo, layers := layers)
    else if cl.needsPrecompile then cl.(pc := Compile, layers := layers, out := [])
    else cl.(pc := Finished(Loaded(layers, false)), layers := layers)
  }

  /** The labels `load_modules` writes back on the layer and on the image. */
  function LayerLabels(cl: Client, snapshot: Labels): Labels
    requires Saving(cl.pc)
  {
    var v := Ref(Sha256(Current(cl)));
    snapshot[Precompile(cl.engine) := v][Slot(|cl.out|) := v]
  }

  function ImageLabels(cl: Client, snapshot: Labels): Labels
    requires Saving(cl.pc)
  {
    snapshot[Slot(|cl.out|) := Ref(Sha256(Current(cl)))][Precompile(cl.engine) := Text("true")]
  }

  /** `update_info` replaces all the labels of existing content. */
  function SetLabels(store: Store, d: Digest, labels: Labels): Store {
    if d in store then store[d := store[d].(labels := labels)] else store
  }

  /** The server side of one request. */
  function Effect(w: World, me: nat, cl: Client): World {
    match cl.pc
    case AcquireLease => Grant(w, me, cl.engine)
    case Commit => if cl.engine !in w.leases then w else CommitEffect(w, cl)
    case LayerUpdate(snapshot) => Relabel(w, cl.configs[|cl.out|].digest, LayerLabels(cl, snapshot))
    case ImageUpdate(snapshot) => Relabel(w, cl.image, ImageLabels(cl, snapshot))
    case Release => Unlease(w, cl.engine)
    case Dropping => Unlease(w, cl.engine)
    case _ => w
  }

  function Grant(w: World, me: nat, e: Engine): World {
    if e in w.leases then w else w.(leases := w.leases[e := Lease(me, {})])
  }

  function Unlease(w: World, e: Engine): World {
    w.(leases := w.leases - {e})
  }

  function Relabel(w: World, d: Digest, labels: Labels): World {
    w.(store := SetLabels(w.store, d, labels))
  }

  /** Stat, chunks and commit: existing content is pinned, a completed upload stored and pinned, others only grow. */
  function CommitEffect(w: World, cl: Client): World
    requires cl.pc.Commit? && cl.engine in w.leases
  {
    var v, e := Sha256(Current(cl)), cl.engine;
    var pinned := w.leases[e := w.leases[e].(pins := w.leases[e].pins + {v})];
    var labels := map[Original(e) := Ref(cl.configs[|cl.out|].digest)];
    if v in w.store then w.(leases := pinned)
    else if Accepts(w, cl) then
      w.(store := w.store[v := Entry(v.blob, labels)], leases := pinned, uploads := w.uploads - {e})
    else CutOff(w, cl, |Current(cl).bytes|)
  }

  /** An upload is cut off when the bytes up to `end` have arrived. */
  function CutOff(w: World, cl: Client, end: nat): World {
    if cl.pc.Commit? && cl.engine in w.leases && Sha256(Current(cl)) !in w.store then
      SetLeftOver(w, cl.engine, Grown(LeftOver(w, cl.engine), Current(cl).bytes, end))
    else w
  }

  function ClientTurn(c: Compiler, w: World, me: nat, fate: Fate): World
    requires me in w.clients
  {
    var cl := w.clients[me];
    var w' := if TakesEffect(fate) then Effect(w, me, cl) else if fate.Cut? then CutOff(w, cl, fate.end) else w;
    w'.(clients := w.clients[me := Continue(c, w, cl, fate.Served?)])
  }

  /** `live` is closed under the gc references of the content it keeps. */
  predicate Closed(store: Store, live: set<Digest>) {
    forall d | d in live && d in store ::
      forall k | k in store[d].labels ::
        IsGcRef(k) && store[d].labels[k].Ref? ==> store[d].labels[k].digest in live
  }

  /** A collector may keep any closed set that contains the images and the leased content. */
  predicate MayKeep(w: World, live: set<Digest>) {
    && w.images <= live
    && (forall e | e in w.leases :: w.leases[e].pins <= live)
    && Closed(w.store, live)
  }

  function PulledSet(image: Digest): set<Digest> {
    match image.blob
    case Raw(_) => {image}
    case Manifest(config, layers) => {image, config} + set i | 0 <= i < |layers| :: layers[i].digest
  }

  function PullInto(store: Store, image: Digest): Store {
    map d | d in store.Keys + PulledSet(image) ::
      if d in store then store[d] else Entry(d.blob, BaseLabels(d))
  }

  /** A load is asked for. */
  function Begin(w: World, me: nat, engine: Engine, image: Digest, supported: set<string>): World {
    if me in w.clients || !image.blob.Manifest? then w
    else
      var configs := WasmLayers(image.blob.layers, supported);
      var pc := if configs == [] then Finished(Loaded([], false)) else CheckImage;
      w.(clients := w.clients[me := ClientRecord(engine, image, configs, pc, false, [], [], [])])
  }

  /** The shim dies in the middle of a load. */
  function Die(w: World, me: nat): World {
    if me in w.clients && !w.clients[me].pc.Finished? then
      w.(clients := w.clients[me := w.clients[me].(pc := Finished(Failed))])
    else w
  }

  function Collect(w: World, live: set<Digest>): World {
    if MayKeep(w, live) then w.(store := map d | d in w.store && d in live :: w.store[d]) else w
  }

  function Do(c: Compiler, w: World, a: Action): World {
    match a
    case Spawn(me, engine, image, supported) => Begin(w, me, engine, image, supported)
    case Turn(me, fate) => if me in w.clients then ClientTurn(c, w, me, fate) else w
    case Crash(me) => Die(w, me)
    case Gc(live) => Collect(w, live)
    case Delete(d) => w.(store := w.store - {d}, deleted := w.deleted + {d})
    case Pull(image) => w.(store := PullInto(w.store, image), images := w.images + {image})
    case Untag(image) => w.(images := w.images - {image})
  }

  function Exec(c: Compiler, w: World, actions: seq<Action>): World {
    if actions == [] then w
    else Do(c, Exec(c, w, actions[..|actions| - 1]), actions[|actions| - 1])
  }

  /** What containerd and its users do between requests: a collection takes everything it may not keep, and so on. */
  lemma OthersAct(c: Compiler, w: World, d: Digest)
    ensures d !in Do(c, w, Delete(d)).store && d in Do(c, w, Delete(d)).deleted
    ensures Do(c, w, Pull(d)).store.Keys == w.store.Keys + PulledSet(d) && d in Do(c, w, Pull(d)).images
    ensures d !in Do(c, w, Untag(d)).images
    ensures forall live | MayKeep(w, live) :: Do(c, w, Gc(live)).store.Keys == w.store.Keys * live
  {
  }

  lemma ExecSnoc(c: Compiler, w: World, actions: seq<Action>, a: Action)
    ensures Exec(c, w, actions + [a]) == Do(c, Exec(c, w, actions), a)
  {
    assert (actions + [a])[..|actions|] == actions;
  }

  /** How many of the actions are turns of client `me`. */
  function OwnTurns(me: nat, actions: seq<Action>): nat {
    if actions == [] then 0
    else
      var a := actions[|actions| - 1];
      OwnTurns(me, actions[..|actions| - 1]) + if a.Turn? && a.me == me then 1 else 0
  }

  /** Something an action may do in the world it meets. */
  type Happening = (World, Action) -> bool

  ghost predicate Ever(c: Compiler, w: World, actions: seq<Action>, h: Happening) {
    exists n :: 0 <= n < |actions| && h(Exec(c, w, actions[..n]), actions[n])
  }

  lemma EverSnoc(c: Compiler, w: World, actions: seq<Action>, a: Action, h: Happening)
    ensures Ever(c, w, actions + [a], h) <==> Ever(c, w, actions, h) || h(Exec(c, w, actions), a)
  {
    var all := actions + [a];
    assert forall n :: 0 <= n <= |actions| ==> all[..n] == actions[..n];
    assert actions[..|actions|] == actions;
    if Ever(c, w, actions, h) {
      var n :| 0 <= n < |actions| && h(Exec(c, w, actions[..n]), actions[n]);
      assert h(Exec(c, w, all[..n]), all[n]);
    }
    if h(Exec(c, w, actions), a) { assert h(Exec(c, w, all[..|actions|]), all[|actions|]); }
    if Ever(c, w, all, h) {
      var n :| 0 <= n < |all| && h(Exec(c, w, all[..n]), all[n]);
      if n < |actions| { assert h(Exec(c, w, actions[..n]), actions[n]); }
    }
  }

  lemma ContinueFrame(c: Compiler, w: World, cl: Client, ok: bool)
    ensures var next := Continue(c, w, cl, ok);
            next.engine == cl.engine && next.image == cl.image && next.configs == cl.configs
  {
  }

  /** The action is a turn or the crash of client `me`. */
  predicate Own(me: nat, a: Action) {
    (a.Turn? || a.Crash?) && a.me == me
  }

  /** What an action does to one client: only its own turns and its crash change it, and never what it loads. */
  lemma ClientAfter(c: Compiler, w: World, a: Action, me: nat)
    requires me in w.clients
    ensures var w' := Do(c, w, a);
            && me in w'.clients
            && w'.clients[me].engine == w.clients[me].engine
            && w'.clients[me].image == w.clients[me].image
            && w'.clients[me].configs == w.clients[me].configs
            && (!Own(me, a) ==> w'.clients[me] == w.clients[me])
  {
    if a.Turn? && a.me == me {
      ContinueFrame(c, w, w.clients[me], a.fate.Served?);
    }
  }
}
