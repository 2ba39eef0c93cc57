/** `WasmtimeCompiler::compile`: the loop that pushes one entry per recognised layer. */
module WasmCompile {
  import opened Options
  import opened Content
  import opened PrecompileCache

  datatype WasmKind = CoreModule | Component

  /** The parts of wasmtime the compiler calls; `precompile` gives `None` for an error. */
  datatype Wasmtime = Wasmtime(
    detectPrecompiled: Blob -> bool,
    kind: Blob -> Option<WasmKind>,
    precompile: (WasmKind, Blob) -> Option<Bytes>)

  predicate Fails(w: Wasmtime, b: Blob) {
    && !w.detectPrecompiled(b)
    && w.kind(b).Some?
    && w.precompile(w.kind(b).value, b).None?
  }

  function OutcomeOf(w: Wasmtime, b: Blob): Outcome {
    if w.detectPrecompiled(b) then Keep
    else
      match w.kind(b)
      case None => Unknown
      case Some(kind) =>
        match w.precompile(kind, b)
        case Some(code) => Code(code)
        case None => Unknown
  }

  function AsCompiler(w: Wasmtime): Compiler {
    (e: Engine, b: Blob) => OutcomeOf(w, b)
  }

  /** If wasmtime recognises what it precompiled, its compiler leaves its own output alone. */
  lemma WasmtimeKeepsItsOutput(w: Wasmtime)
    requires forall kind, b, code :: w.precompile(kind, b) == Some(code) ==> w.detectPrecompiled(Raw(code))
    ensures OwnOutput(AsCompiler(w))
  {
    forall e, b, o | IsCode(AsCompiler(w), e, b, o) ensures AsCompiler(w)(e, o) == Keep {
      assert w.precompile(w.kind(b).value, b) == Some(o.bytes);
    }
  }

  predicate Recognised(w: Wasmtime, b: Blob) {
    w.detectPrecompiled(b) || w.kind(b).Some?
  }

  /** The entry of a recognised layer: none if it is precompiled already, else what its kind precompiles to. */
  function Entry(w: Wasmtime, b: Blob): Option<Bytes>
    requires Recognised(w, b)
  {
    if w.detectPrecompiled(b) then None else w.precompile(w.kind(b).value, b)
  }

  /** Stops with an error at the first layer that does not precompile, otherwise gives `CompileAll`. */
  method Compile(w: Wasmtime, e: Engine, layers: seq<Layer>) returns (r: Option<seq<Option<Bytes>>>)
    ensures r.None? <==> exists i :: 0 <= i < |layers| && Fails(w, layers[i].data)
    ensures r.Some? ==> r.value == CompileAll(AsCompiler(w), e, layers)
    ensures r.Some? && (forall i :: 0 <= i < |layers| ==> Recognised(w, layers[i].data)) ==>
              && |r.value| == |layers|
              && forall i :: 0 <= i < |layers| ==> r.value[i] == Entry(w, layers[i].data)
  {
    var compiled: seq<Option<Bytes>> := [];
    for i := 0 to |layers|
      invariant forall j :: 0 <= j < i ==> !Fails(w, layers[j].data)
      invariant compiled == CompileAll(AsCompiler(w), e, layers[..i])
      invariant (forall j :: 0 <= j < i ==> Recognised(w, layers[j].data)) ==>
                  |compiled| == i && forall j :: 0 <= j < i ==> compiled[j] == Entry(w, layers[j].data)
    {
      assert layers[..i + 1][..i] == layers[..i];
      var data := layers[i].data;
      if w.detectPrecompiled(data) {
        compiled := compiled + [None];
        continue;
      }
      match w.kind(data) {
        case None =>
          continue;
        case Some(kind) =>
          var code := w.precompile(kind, data);
          if code.None? {
            return None;
          }
          compiled := compiled + [code];
      }
    }
    assert layers[..|layers|] == layers;
    r := Some(compiled);
  }
}
