/** Values shared by the models of the containerd content store: blobs, digests, labels. */
module Content {

  newtype byte = x: int | 0 <= x < 256

  type Bytes = seq<byte>

  /** What a digest can name.  A manifest is kept decoded; JSON encoding is not modelled. */
  datatype Blob =
    | Raw(bytes: Bytes)
    | Manifest(config: Digest, layers: seq<Descriptor>)

  /** SHA-256 as an ideal hash: a digest determines its preimage. */
  datatype Digest = Sha256(blob: Blob)

  datatype Descriptor = Descriptor(digest: Digest, mediaType: string)

  /** The cache key of one compiler: engine name and the 64-bit hash of `Compiler::cache_key`. */
  datatype Engine = Engine(name: string, version: nat)

  /** Label keys.  `LabelKeys.Text` gives the strings, which are pairwise different. */
  datatype Key =
    | Precompile(engine: Engine)  // names the compiled blob (on a layer) or "true" (on an image)
    | Original(engine: Engine)    // names the original layer (on a compiled blob)
    | Slot(index: nat)            // gc reference from a layer or image to a compiled blob
    | Child(index: nat)           // gc reference from a manifest to one of its layers
    | ConfigChild                 // gc reference from a manifest to its config

  /** A label value parses as a digest (`Ref`) or does not (`Text`). */
  datatype Value = Ref(digest: Digest) | Text(text: string)

  type Labels = map<Key, Value>

  predicate IsGcRef(k: Key) {
    k.Slot? || k.Child? || k.ConfigChild?
  }

  function ChildLabels(layers: seq<Descriptor>): (r: Labels)
    ensures forall k :: 0 <= k < |layers| ==> Child(k) in r && r[Child(k)] == Ref(layers[k].digest)
    ensures forall k :: k in r ==> k.Child? && k.index < |layers|
  {
    if layers == [] then map[]
    else
      var n := |layers| - 1;
      ChildLabels(layers[..n])[Child(n) := Ref(layers[n].digest)]
  }

  /** The labels containerd puts on a blob when an image is pulled: a manifest refers to its children. */
  function BaseLabels(d: Digest): Labels {
    match d.blob
    case Raw(_) => map[]
    case Manifest(config, layers) =>
      ChildLabels(layers)[ConfigChild := Ref(config)]
  }

  /**
   What becomes of a request: containerd serves it, refuses it, never sees it, or serves it and the
   reply is lost.  An upload, which takes several messages, may also be cut off at offset `end`.
   */
  datatype Fate = Served | Refused | Unserved | ReplyLost | Cut(end: nat)

  predicate TakesEffect(f: Fate) {
    f.Served? || f.ReplyLost?
  }

  /** Every entry of `small` is in `big` with the same value. */
  predicate SubLabels(small: Labels, big: Labels) {
    forall k :: k in small ==> k in big && big[k] == small[k]
  }
}
