/**
 The OCI image layout writer: `Builder::build` writes blobs, manifest and index into a tar, and a
 reader that follows index, manifest and descriptors gets the layers back.
 */
module OciLayout {
  import opened Options
  import Content

  type Bytes = Content.Bytes

  /** `digest` is the hash without its "sha256:" prefix. */
  datatype Descriptor = Descriptor(mediaType: string, digest: string, size: nat)

  datatype Manifest = Manifest(config: Descriptor, layers: seq<Descriptor>)

  datatype Index = Index(manifests: seq<Descriptor>)

  /** manifest.json: paths of the config and of every layer as added, and the tags. */
  datatype DockerManifest = DockerManifest(config: Option<Path>, tags: seq<string>, layers: seq<Path>)

  /** "blobs/sha256/<hash>" and the three fixed files of the layout. */
  datatype Path = BlobPath(digest: string) | IndexJson | LayoutFile | ManifestJson

  datatype Entry = Entry(path: Path, data: Bytes)

  type Tar = seq<Entry>

  /** SHA-256 and the JSON encodings, which are library code. */
  datatype Codec = Codec(
    sha: Bytes -> string,
    putManifest: Manifest -> Bytes, getManifest: Bytes -> Option<Manifest>,
    putIndex: Index -> Bytes, getIndex: Bytes -> Option<Index>,
    putDocker: DockerManifest -> Bytes, getDocker: Bytes -> Option<DockerManifest>,
    layout: Bytes)

  ghost predicate ValidCodec(c: Codec) {
    && (forall a, b :: c.sha(a) == c.sha(b) ==> a == b)
    && (forall m :: c.getManifest(c.putManifest(m)) == Some(m))
    && (forall i :: c.getIndex(c.putIndex(i)) == Some(i))
    && (forall m :: c.getDocker(c.putDocker(m)) == Some(m))
  }

  /** A layer file, `None` when it cannot be read, and the media type it was added with. */
  datatype LayerFile = LayerFile(data: Option<Bytes>, mediaType: string)

  datatype ConfigFile = ConfigFile(text: Bytes, name: string, mediaType: string)

  const MANIFEST_TYPE := "application/vnd.oci.image.manifest.v1+json"

  function MediaType(added: string): string {
    if added == "" then "application/vnd.oci.image.layer.v1.tar" else added
  }

  predicate Readable(layers: seq<LayerFile>) {
    forall i :: 0 <= i < |layers| ==> layers[i].data.Some?
  }

  function Describe(c: Codec, mediaType: string, data: Bytes): Descriptor {
    Descriptor(mediaType, c.sha(data), |data|)
  }

  function Blob(c: Codec, data: Bytes): Entry {
    Entry(BlobPath(c.sha(data)), data)
  }

  // ----- the reader -----

  function Find(tar: Tar, path: Path): Option<Bytes> {
    if tar == [] then None
    else if tar[0].path == path then Some(tar[0].data)
    else Find(tar[1..], path)
  }

  /** The blob a descriptor names, if it is there with that digest and that size. */
  function Fetch(c: Codec, tar: Tar, d: Descriptor): Option<Bytes> {
    match Find(tar, BlobPath(d.digest))
    case Some(data) => if c.sha(data) == d.digest && |data| == d.size then Some(data) else None
    case None => None
  }

  datatype Image = Image(config: (Descriptor, Bytes), layers: seq<(Descriptor, Bytes)>)

  function FetchLayers(c: Codec, tar: Tar, ds: seq<Descriptor>): Option<seq<(Descriptor, Bytes)>> {
    if ds == [] then Some([])
    else
      match (FetchLayers(c, tar, ds[..|ds| - 1]), Fetch(c, tar, ds[|ds| - 1]))
      case (Some(init), Some(data)) => Some(init + [(ds[|ds| - 1], data)])
      case _ => None
  }

  function ReadImage(c: Codec, tar: Tar, d: Descriptor): Option<Image> {
    match (d.mediaType == "application/vnd.oci.image.manifest.v1+json", Fetch(c, tar, d))
    case (true, Some(bytes)) =>
      (match c.getManifest(bytes)
       case None => None
       case Some(m) =>
         match (Fetch(c, tar, m.config), FetchLayers(c, tar, m.layers))
         case (Some(config), Some(layers)) => Some(Image((m.config, config), layers))
         case _ => None)
    case _ => None
  }

  /** Follow index.json to every image it lists. */
  function ReadImages(c: Codec, tar: Tar): Option<seq<Option<Image>>> {
    match Find(tar, IndexJson)
    case None => None
    case Some(bytes) =>
      match c.getIndex(bytes)
      case None => None
      case Some(index) =>
        Some(seq(|index.manifests|, i requires 0 <= i < |index.manifests| => ReadImage(c, tar, index.manifests[i])))
  }

  datatype DockerImage = DockerImage(config: Option<Bytes>, tags: seq<string>, layers: seq<Option<Bytes>>)

  /** Follow manifest.json, which names files by path. */
  function ReadDocker(c: Codec, tar: Tar): Option<DockerImage> {
    match Find(tar, ManifestJson)
    case None => None
    case Some(bytes) =>
      match c.getDocker(bytes)
      case None => None
      case Some(m) =>
        var config := match m.config { case Some(path) => Find(tar, path) case None => None };
        Some(DockerImage(config, m.tags, seq(|m.layers|, i requires 0 <= i < |m.layers| => Find(tar, m.layers[i]))))
  }

  // ----- what should come back -----

  function Hashes(c: Codec, layers: seq<LayerFile>): seq<string>
    requires Readable(layers)
  {
    seq(|layers|, i requires 0 <= i < |layers| => c.sha(layers[i].data.value))
  }

  /** The different elements in the order of their first occurrence. */
  function Distinct(xs: seq<string>): seq<string> {
    if xs == [] then []
    else
      var init := Distinct(xs[..|xs| - 1]);
      if xs[|xs| - 1] in xs[..|xs| - 1] then init else init + [xs[|xs| - 1]]
  }

  /** The last layer added with a given hash. */
  function LastWith(c: Codec, layers: seq<LayerFile>, hash: string): LayerFile
    requires Readable(layers) && hash in Hashes(c, layers)
  {
    var n := |layers| - 1;
    if c.sha(layers[n].data.value) == hash then layers[n]
    else
      assert Hashes(c, layers)[..n] == Hashes(c, layers[..n]);
      LastWith(c, layers[..n], hash)
  }

  // ----- the writer -----

  /** `IndexMap::insert`: a known digest keeps its position and takes the new descriptor. */
  function Insert(m: seq<Descriptor>, d: Descriptor): seq<Descriptor> {
    if m == [] then [d]
    else if m[0].digest == d.digest then [d] + m[1..]
    else [m[0]] + Insert(m[1..], d)
  }

  function Entries(c: Codec, layers: seq<LayerFile>): seq<Descriptor>
    requires Readable(layers)
  {
    if layers == [] then []
    else
      var last := layers[|layers| - 1];
      Insert(Entries(c, layers[..|layers| - 1]), Describe(c, MediaType(last.mediaType), last.data.value))
  }

  /** What the reader should find for `layers`: each digest once, in first-added order, typed as last added. */
  function ExpectedLayers(c: Codec, layers: seq<LayerFile>): seq<(Descriptor, Bytes)>
    requires Readable(layers)
  {
    DistinctSound(Hashes(c, layers));
    var hs := Distinct(Hashes(c, layers));
    seq(|hs|, i requires 0 <= i < |hs| => Typed(c, LastWith(c, layers, hs[i])))
  }

  function Typed(c: Codec, l: LayerFile): (Descriptor, Bytes) {
    var data := if l.data.Some? then l.data.value else [];
    (Describe(c, MediaType(l.mediaType), data), data)
  }

  lemma {:induction false} DistinctSound(xs: seq<string>)
    ensures forall x :: x in Distinct(xs) <==> x in xs
    ensures forall i, j :: 0 <= i < j < |Distinct(xs)| ==> Distinct(xs)[i] != Distinct(xs)[j]
  {
    if xs != [] {
      var n := |xs| - 1;
      DistinctSound(xs[..n]);
      assert xs == xs[..n] + [xs[n]];
    }
  }

  lemma {:induction false} InsertKnown(m: seq<Descriptor>, d: Descriptor, k: nat)
    requires k < |m| && m[k].digest == d.digest
    requires forall i, j :: 0 <= i < j < |m| ==> m[i].digest != m[j].digest
    ensures Insert(m, d) == m[k := d]
  {
    if m[0].digest == d.digest {
      assert k == 0;
    } else {
      InsertKnown(m[1..], d, k - 1);
      assert m == [m[0]] + m[1..];
    }
  }

  lemma {:induction false} InsertNew(m: seq<Descriptor>, d: Descriptor)
    requires forall i :: 0 <= i < |m| ==> m[i].digest != d.digest
    ensures Insert(m, d) == m + [d]
  {
    if m != [] {
      InsertNew(m[1..], d);
      assert m == [m[0]] + m[1..];
    }
  }

  lemma HashesInit(c: Codec, layers: seq<LayerFile>)
    requires Readable(layers) && layers != []
    ensures Hashes(c, layers)[..|layers| - 1] == Hashes(c, layers[..|layers| - 1])
  {
  }

  /** `m` lists each digest once, in first-added order, with the descriptor of the last add. */
  ghost predicate Deduplicates(c: Codec, layers: seq<LayerFile>, m: seq<Descriptor>)
    requires Readable(layers)
  {
    var hs := Distinct(Hashes(c, layers));
    && |m| == |hs|
    && forall i :: 0 <= i < |m| ==>
         && m[i].digest == hs[i]
         && hs[i] in Hashes(c, layers)
         && m[i] == Typed(c, LastWith(c, layers, hs[i])).0
  }

  lemma HashesSnoc(c: Codec, layers: seq<LayerFile>, l: LayerFile)
    requires Readable(layers) && l.data.Some?
    ensures Readable(layers + [l]) && Hashes(c, layers + [l]) == Hashes(c, layers) + [c.sha(l.data.value)]
    ensures Distinct(Hashes(c, layers + [l])) ==
            Distinct(Hashes(c, layers)) + if c.sha(l.data.value) in Hashes(c, layers) then [] else [c.sha(l.data.value)]
  {
    var hash := c.sha(l.data.value);
    assert Hashes(c, layers + [l]) == Hashes(c, layers) + [hash];
    assert (Hashes(c, layers) + [hash])[..|layers|] == Hashes(c, layers);
  }

  lemma LastWithSnoc(c: Codec, layers: seq<LayerFile>, l: LayerFile, hash: string)
    requires Readable(layers) && l.data.Some? && Readable(layers + [l])
    requires hash in Hashes(c, layers + [l])
    ensures c.sha(l.data.value) == hash ==> LastWith(c, layers + [l], hash) == l
    ensures c.sha(l.data.value) != hash ==>
              hash in Hashes(c, layers) && LastWith(c, layers + [l], hash) == LastWith(c, layers, hash)
  {
    HashesSnoc(c, layers, l);
    assert (layers + [l])[..|layers|] == layers;
  }

  lemma AddKnown(c: Codec, layers: seq<LayerFile>, m: seq<Descriptor>, l: LayerFile)
    requires Readable(layers) && l.data.Some? && Deduplicates(c, layers, m) && Readable(layers + [l])
    requires c.sha(l.data.value) in Hashes(c, layers)
    ensures Deduplicates(c, layers + [l], Insert(m, Typed(c, l).0))
  {
    var hs, hash, m' := Distinct(Hashes(c, layers)), c.sha(l.data.value), Insert(m, Typed(c, l).0);
    HashesSnoc(c, layers, l);
    DistinctSound(Hashes(c, layers));
    var k :| 0 <= k < |hs| && hs[k] == hash;
    InsertKnown(m, Typed(c, l).0, k);
    forall i | 0 <= i < |m'|
      ensures m'[i].digest == hs[i] && hs[i] in Hashes(c, layers + [l]) && m'[i] == Typed(c, LastWith(c, layers + [l], hs[i])).0
    {
      LastWithSnoc(c, layers, l, hs[i]);
    }
  }

  lemma AddNew(c: Codec, layers: seq<LayerFile>, m: seq<Descriptor>, l: LayerFile)
    requires Readable(layers) && l.data.Some? && Deduplicates(c, layers, m) && Readable(layers + [l])
    requires c.sha(l.data.value) !in Hashes(c, layers)
    ensures Deduplicates(c, layers + [l], Insert(m, Typed(c, l).0))
  {
    var hs, hash, m' := Distinct(Hashes(c, layers + [l])), c.sha(l.data.value), Insert(m, Typed(c, l).0);
    HashesSnoc(c, layers, l);
    DistinctSound(Hashes(c, layers));
    InsertNew(m, Typed(c, l).0);
    forall i | 0 <= i < |m'|
      ensures m'[i].digest == hs[i] && hs[i] in Hashes(c, layers + [l]) && m'[i] == Typed(c, LastWith(c, layers + [l], hs[i])).0
    {
      LastWithSnoc(c, layers, l, hs[i]);
    }
  }

  lemma {:induction false} EntriesAre(c: Codec, layers: seq<LayerFile>)
    requires Readable(layers)
    ensures Deduplicates(c, layers, Entries(c, layers))
  {
    if layers != [] {
      var n := |layers| - 1;
      EntriesAre(c, layers[..n]);
      assert layers == layers[..n] + [layers[n]];
      if c.sha(layers[n].data.value) in Hashes(c, layers[..n]) {
        AddKnown(c, layers[..n], Entries(c, layers[..n]), layers[n]);
      } else {
        AddNew(c, layers[..n], Entries(c, layers[..n]), layers[n]);
      }
    }
  }

  /** The media type of a layer: the one it was added with, or that of a plain layer. */
  predicate TypedAs(l: LayerFile, mediaType: string) {
    if l.mediaType != "" then mediaType == l.mediaType else mediaType == "application/vnd.oci.image.layer.v1.tar"
  }

  predicate HasHash(c: Codec, l: LayerFile, hash: string) {
    l.data.Some? && c.sha(l.data.value) == hash
  }

  /** Layer `p` is the last one added with its content, and `d` describes it. */
  ghost predicate DescribesLast(c: Codec, layers: seq<LayerFile>, d: Descriptor, p: nat)
    requires p < |layers|
  {
    && HasHash(c, layers[p], d.digest) && d.size == |layers[p].data.value| && TypedAs(layers[p], d.mediaType)
    && forall q :: p < q < |layers| ==> !HasHash(c, layers[q], d.digest)
  }

  /** Some layer with hash `first` was added before any with hash `second`. */
  ghost predicate AddedBefore(c: Codec, layers: seq<LayerFile>, first: string, second: string) {
    exists p :: 0 <= p < |layers| && HasHash(c, layers[p], first) &&
                forall q :: 0 <= q <= p ==> !HasHash(c, layers[q], second)
  }

  /**
   `ds` lists the added layers by content: each of them, in the order in which contents were first
   added and so once, with the size and the media type of the last one added.
   */
  ghost predicate ListsOnce(c: Codec, layers: seq<LayerFile>, ds: seq<Descriptor>) {
    && (forall p :: 0 <= p < |layers| ==> Listed(c, layers[p], ds))
    && (forall i :: 0 <= i < |ds| ==> DescribesALast(c, layers, ds[i]))
    && (forall i, j :: 0 <= i < j < |ds| ==> AddedBefore(c, layers, ds[i].digest, ds[j].digest))
  }

  ghost predicate Listed(c: Codec, l: LayerFile, ds: seq<Descriptor>) {
    exists i :: 0 <= i < |ds| && HasHash(c, l, ds[i].digest)
  }

  ghost predicate DescribesALast(c: Codec, layers: seq<LayerFile>, d: Descriptor) {
    exists p :: 0 <= p < |layers| && DescribesLast(c, layers, d, p)
  }

  lemma {:induction false} LastWithIsLast(c: Codec, layers: seq<LayerFile>, hash: string) returns (p: nat)
    requires Readable(layers) && hash in Hashes(c, layers)
    ensures p < |layers| && LastWith(c, layers, hash) == layers[p] && HasHash(c, layers[p], hash)
    ensures forall q :: p < q < |layers| ==> !HasHash(c, layers[q], hash)
  {
    var n := |layers| - 1;
    if c.sha(layers[n].data.value) == hash {
      p := n;
    } else {
      HashesInit(c, layers);
      assert Hashes(c, layers) == Hashes(c, layers[..n]) + [c.sha(layers[n].data.value)];
      p := LastWithIsLast(c, layers[..n], hash);
    }
  }

  lemma {:induction false} DistinctInOrder(xs: seq<string>, i: nat, j: nat) returns (p: nat)
    requires i < j < |Distinct(xs)|
    ensures p < |xs| && xs[p] == Distinct(xs)[i] && Distinct(xs)[j] !in xs[..p + 1]
  {
    var n := |xs| - 1;
    var init := Distinct(xs[..n]);
    if j < |init| {
      p := DistinctInOrder(xs[..n], i, j);
      assert xs[..n][..p + 1] == xs[..p + 1];
    } else {
      DistinctSound(xs[..n]);
      assert init[i] in xs[..n];
      p :| 0 <= p < n && xs[p] == init[i];
      assert xs[..p + 1] == xs[..n][..p + 1];
    }
  }

  lemma DescribedLast(c: Codec, layers: seq<LayerFile>, ds: seq<Descriptor>, i: nat)
    requires Readable(layers) && Deduplicates(c, layers, ds) && i < |ds|
    ensures DescribesALast(c, layers, ds[i])
  {
    var p := LastWithIsLast(c, layers, ds[i].digest);
    assert DescribesLast(c, layers, ds[i], p);
  }

  lemma OrderedByFirst(c: Codec, layers: seq<LayerFile>, ds: seq<Descriptor>, i: nat, j: nat)
    requires Readable(layers) && Deduplicates(c, layers, ds) && i < j < |ds|
    ensures AddedBefore(c, layers, ds[i].digest, ds[j].digest)
  {
    var hs := Hashes(c, layers);
    var p := DistinctInOrder(hs, i, j);
    assert HasHash(c, layers[p], ds[i].digest);
    forall q | 0 <= q <= p ensures !HasHash(c, layers[q], ds[j].digest) {
      assert hs[..p + 1][q] == c.sha(layers[q].data.value);
    }
  }

  /** The index map lists the added layers by content. */
  lemma EntriesDeduplicate(c: Codec, layers: seq<LayerFile>)
    requires Readable(layers)
    ensures Deduplicates(c, layers, Entries(c, layers)) && ListsOnce(c, layers, Entries(c, layers))
  {
    EntriesAre(c, layers);
    DeduplicatedIsListedOnce(c, layers, Entries(c, layers));
  }

  lemma LayerIsListed(c: Codec, layers: seq<LayerFile>, ds: seq<Descriptor>, p: nat)
    requires Readable(layers) && Deduplicates(c, layers, ds) && p < |layers|
    ensures Listed(c, layers[p], ds)
  {
    var hs := Hashes(c, layers);
    DistinctSound(hs);
    assert hs[p] in Distinct(hs);
    var i :| 0 <= i < |Distinct(hs)| && Distinct(hs)[i] == hs[p];
    assert HasHash(c, layers[p], ds[i].digest);
  }

  lemma DeduplicatedIsListedOnce(c: Codec, layers: seq<LayerFile>, ds: seq<Descriptor>)
    requires Readable(layers) && Deduplicates(c, layers, ds)
    ensures ListsOnce(c, layers, ds)
  {
    forall p | 0 <= p < |layers| ensures Listed(c, layers[p], ds) {
      LayerIsListed(c, layers, ds, p);
    }
    forall i | 0 <= i < |ds| ensures DescribesALast(c, layers, ds[i]) {
      DescribedLast(c, layers, ds, i);
    }
    forall i, j | 0 <= i < j < |ds| ensures AddedBefore(c, layers, ds[i].digest, ds[j].digest) {
      OrderedByFirst(c, layers, ds, i, j);
    }
  }

  /** Every blob is filed under its own hash. */
  ghost predicate BlobsOk(c: Codec, tar: Tar) {
    forall i :: 0 <= i < |tar| && tar[i].path.BlobPath? ==> c.sha(tar[i].data) == tar[i].path.digest
  }

  lemma {:induction false} FindBlob(c: Codec, tar: Tar, data: Bytes)
    requires ValidCodec(c) && BlobsOk(c, tar) && Blob(c, data) in tar
    ensures Find(tar, BlobPath(c.sha(data))) == Some(data)
  {
    if tar[0].path == BlobPath(c.sha(data)) {
      assert c.sha(tar[0].data) == c.sha(data);
    } else {
      FindBlob(c, tar[1..], data);
    }
  }

  lemma FetchDescribed(c: Codec, tar: Tar, mediaType: string, data: Bytes)
    requires ValidCodec(c) && BlobsOk(c, tar) && Blob(c, data) in tar
    ensures Fetch(c, tar, Describe(c, mediaType, data)) == Some(data)
  {
    FindBlob(c, tar, data);
  }

  lemma {:induction false} FetchesAll(c: Codec, tar: Tar, expected: seq<(Descriptor, Bytes)>, ds: seq<Descriptor>)
    requires |ds| == |expected| && forall i :: 0 <= i < |ds| ==> ds[i] == expected[i].0
    requires forall i :: 0 <= i < |ds| ==> Fetch(c, tar, ds[i]) == Some(expected[i].1)
    ensures FetchLayers(c, tar, ds) == Some(expected)
  {
    if ds != [] {
      var n := |ds| - 1;
      FetchesAll(c, tar, expected[..n], ds[..n]);
      assert expected == expected[..n] + [expected[n]];
    }
  }

  lemma {:induction false} LastWithIsALayer(c: Codec, layers: seq<LayerFile>, hash: string)
    requires Readable(layers) && hash in Hashes(c, layers)
    ensures LastWith(c, layers, hash) in layers && LastWith(c, layers, hash).data.Some?
  {
    var n := |layers| - 1;
    if c.sha(layers[n].data.value) != hash {
      HashesInit(c, layers);
      assert Hashes(c, layers) == Hashes(c, layers[..n]) + [c.sha(layers[n].data.value)];
      LastWithIsALayer(c, layers[..n], hash);
    }
  }

  /** A tar that holds all layer blobs gives the de-duplicated layers back. */
  lemma LayersReadBack(c: Codec, tar: Tar, layers: seq<LayerFile>)
    requires ValidCodec(c) && BlobsOk(c, tar) && Readable(layers)
    requires forall l :: l in layers ==> Blob(c, l.data.value) in tar
    ensures FetchLayers(c, tar, Entries(c, layers)) == Some(ExpectedLayers(c, layers))
  {
    EntriesDeduplicate(c, layers);
    DistinctSound(Hashes(c, layers));
    var expected, hs := ExpectedLayers(c, layers), Distinct(Hashes(c, layers));
    forall i | 0 <= i < |expected| ensures Fetch(c, tar, expected[i].0) == Some(expected[i].1) {
      var l := LastWith(c, layers, hs[i]);
      LastWithIsALayer(c, layers, hs[i]);
      FetchDescribed(c, tar, MediaType(l.mediaType), l.data.value);
    }
    FetchesAll(c, tar, expected, Entries(c, layers));
  }

  /** The blobs of one image: its config, and the manifest that lists the de-duplicated layers. */
  function ManifestFor(c: Codec, config: ConfigFile, digests: seq<Descriptor>): Bytes {
    c.putManifest(Manifest(Describe(c, config.mediaType, config.text), digests))
  }

  /** The image a config should read back as. */
  function ExpectedImage(c: Codec, config: ConfigFile, layers: seq<LayerFile>): Image
    requires Readable(layers)
  {
    Image((Describe(c, config.mediaType, config.text), config.text), ExpectedLayers(c, layers))
  }

  function ExpectedImages(c: Codec, configs: seq<ConfigFile>, layers: seq<LayerFile>): seq<Option<Image>>
    requires Readable(layers)
  {
    seq(|configs|, i requires 0 <= i < |configs| => Some(ExpectedImage(c, configs[i], layers)))
  }

  lemma ImageReadsBack(c: Codec, tar: Tar, config: ConfigFile, layers: seq<LayerFile>)
    requires ValidCodec(c) && BlobsOk(c, tar) && Readable(layers)
    requires forall l :: l in layers ==> Blob(c, l.data.value) in tar
    requires Blob(c, config.text) in tar && Blob(c, ManifestFor(c, config, Entries(c, layers))) in tar
    ensures ReadImage(c, tar, Describe(c, MANIFEST_TYPE, ManifestFor(c, config, Entries(c, layers)))) ==
            Some(ExpectedImage(c, config, layers))
  {
    FetchDescribed(c, tar, MANIFEST_TYPE, ManifestFor(c, config, Entries(c, layers)));
    FetchDescribed(c, tar, config.mediaType, config.text);
    LayersReadBack(c, tar, layers);
  }

  lemma {:induction false} FindAfter(before: Tar, e: Entry, after: Tar)
    requires forall i :: 0 <= i < |before| ==> before[i].path != e.path
    ensures Find(before + [e] + after, e.path) == Some(e.data)
  {
    var tar := before + [e] + after;
    if before != [] {
      assert tar[1..] == before[1..] + [e] + after;
      FindAfter(before[1..], e, after);
    } else {
      assert tar[0] == e;
    }
  }

  /** The three files at the end of the layout. */
  function Trailer(c: Codec, manifests: seq<Descriptor>, docker: DockerManifest): Tar {
    [Entry(IndexJson, c.putIndex(Index(manifests)))] +
    [Entry(LayoutFile, c.layout), Entry(ManifestJson, c.putDocker(docker))]
  }

  ghost predicate OnlyBlobs(c: Codec, tar: Tar) {
    BlobsOk(c, tar) && forall i :: 0 <= i < |tar| ==> tar[i].path.BlobPath?
  }

  ghost predicate HoldsLayers(c: Codec, tar: Tar, layers: seq<LayerFile>)
    requires Readable(layers)
  {
    forall l :: l in layers ==> Blob(c, l.data.value) in tar
  }

  /** Config and manifest of every config are in the tar, and `manifests` describes the manifests. */
  ghost predicate HoldsManifests(
    c: Codec, tar: Tar, configs: seq<ConfigFile>, digests: seq<Descriptor>, manifests: seq<Descriptor>)
  {
    && |manifests| == |configs|
    && forall i :: 0 <= i < |configs| ==>
         && Blob(c, configs[i].text) in tar
         && Blob(c, ManifestFor(c, configs[i], digests)) in tar
         && manifests[i] == Describe(c, MANIFEST_TYPE, ManifestFor(c, configs[i], digests))
  }

  /** Following index.json of the finished tar gives back every image that was put in. */
  lemma LayoutReadsBack(
    c: Codec, blobs: Tar, docker: DockerManifest, configs: seq<ConfigFile>, layers: seq<LayerFile>,
    manifests: seq<Descriptor>)
    requires ValidCodec(c) && OnlyBlobs(c, blobs) && Readable(layers) && HoldsLayers(c, blobs, layers)
    requires HoldsManifests(c, blobs, configs, Entries(c, layers), manifests)
    ensures ReadImages(c, blobs + Trailer(c, manifests, docker)) ==
            Some(ExpectedImages(c, configs, layers))
  {
    var trailer := Trailer(c, manifests, docker);
    var tar := blobs + trailer;
    FindAfter(blobs, trailer[0], trailer[1..]);
    assert blobs + [trailer[0]] + trailer[1..] == tar;
    forall i | 0 <= i < |configs|
      ensures ReadImage(c, tar, manifests[i]) == Some(ExpectedImage(c, configs[i], layers))
    {
      ImageReadsBack(c, tar, configs[i], layers);
    }
    assert ReadImages(c, tar).value == ExpectedImages(c, configs, layers);
  }

  lemma LayoutFileIsThere(c: Codec, blobs: Tar, docker: DockerManifest, manifests: seq<Descriptor>)
    requires OnlyBlobs(c, blobs)
    ensures Find(blobs + Trailer(c, manifests, docker), LayoutFile) == Some(c.layout)
  {
    var trailer := Trailer(c, manifests, docker);
    FindAfter(blobs + trailer[..1], trailer[1], trailer[2..]);
    assert blobs + trailer[..1] + [trailer[1]] + trailer[2..] == blobs + trailer;
  }

  /** What manifest.json records: the last config, every name, and the path of every layer as added. */
  function DockerFor(c: Codec, configs: seq<ConfigFile>, layers: seq<LayerFile>): DockerManifest
    requires Readable(layers)
  {
    DockerManifest(ConfigPath(c, configs), Names(configs), LayerPaths(c, layers))
  }

  function ConfigPath(c: Codec, configs: seq<ConfigFile>): Option<Path> {
    if configs == [] then None else Some(BlobPath(c.sha(configs[|configs| - 1].text)))
  }

  function Names(configs: seq<ConfigFile>): seq<string> {
    seq(|configs|, i requires 0 <= i < |configs| => configs[i].name)
  }

  function LayerPaths(c: Codec, layers: seq<LayerFile>): seq<Path>
    requires Readable(layers)
  {
    seq(|layers|, i requires 0 <= i < |layers| => BlobPath(c.sha(layers[i].data.value)))
  }

  /** One more layer: what the loop adds to the tar, the index map and the paths. */
  lemma WriteLayer(c: Codec, tar: Tar, layers: seq<LayerFile>, l: LayerFile)
    requires Readable(layers) && l.data.Some? && OnlyBlobs(c, tar) && HoldsLayers(c, tar, layers)
    ensures Readable(layers + [l])
    ensures OnlyBlobs(c, tar + [Blob(c, l.data.value)])
    ensures HoldsLayers(c, tar + [Blob(c, l.data.value)], layers + [l])
    ensures Entries(c, layers + [l]) == Insert(Entries(c, layers), Describe(c, MediaType(l.mediaType), l.data.value))
    ensures LayerPaths(c, layers + [l]) == LayerPaths(c, layers) + [BlobPath(c.sha(l.data.value))]
  {
    assert (layers + [l])[..|layers|] == layers;
  }

  /** The docker view keeps every layer as added, repeated ones included. */
  function ExpectedDocker(configs: seq<ConfigFile>, layers: seq<LayerFile>): DockerImage {
    DockerImage(
      if configs == [] then None else Some(configs[|configs| - 1].text),
      Names(configs),
      seq(|layers|, i requires 0 <= i < |layers| => layers[i].data))
  }

  // ----- when the two manifests list the same layers -----

  lemma {:induction false} DistinctFull(xs: seq<string>)
    ensures |Distinct(xs)| <= |xs|
    ensures |Distinct(xs)| == |xs| <==> forall i, j :: 0 <= i < j < |xs| ==> xs[i] != xs[j]
    ensures |Distinct(xs)| == |xs| ==> Distinct(xs) == xs
  {
    if xs != [] {
      var n := |xs| - 1;
      DistinctFull(xs[..n]);
      assert xs == xs[..n] + [xs[n]];
      if xs[n] in xs[..n] {
        var i :| 0 <= i < n && xs[..n][i] == xs[n];
        assert xs[i] == xs[n];
      }
    }
  }

  lemma {:induction false} LastWithHash(c: Codec, layers: seq<LayerFile>, hash: string)
    requires Readable(layers) && hash in Hashes(c, layers)
    ensures LastWith(c, layers, hash).data.Some? && c.sha(LastWith(c, layers, hash).data.value) == hash
  {
    var n := |layers| - 1;
    if c.sha(layers[n].data.value) != hash {
      HashesInit(c, layers);
      assert Hashes(c, layers) == Hashes(c, layers[..n]) + [c.sha(layers[n].data.value)];
      LastWithHash(c, layers[..n], hash);
    }
  }

  /** The layers as the OCI manifest lists them, contents only. */
  function OciLayers(c: Codec, layers: seq<LayerFile>): seq<Option<Bytes>>
    requires Readable(layers)
  {
    var expected := ExpectedLayers(c, layers);
    seq(|expected|, i requires 0 <= i < |expected| => Some(expected[i].1))
  }

  ghost predicate AllDifferent(layers: seq<LayerFile>) {
    forall i, j :: 0 <= i < j < |layers| ==> layers[i].data != layers[j].data
  }

  lemma DifferentHashes(c: Codec, layers: seq<LayerFile>)
    requires ValidCodec(c) && Readable(layers)
    ensures AllDifferent(layers) <==>
            forall i, j :: 0 <= i < j < |layers| ==> Hashes(c, layers)[i] != Hashes(c, layers)[j]
  {
    if AllDifferent(layers) {
      forall i, j | 0 <= i < j < |layers| ensures Hashes(c, layers)[i] != Hashes(c, layers)[j] {
        assert layers[i].data != layers[j].data;
      }
    } else {
      var i, j :| 0 <= i < j < |layers| && layers[i].data == layers[j].data;
      assert Hashes(c, layers)[i] == Hashes(c, layers)[j];
    }
  }

  /** The OCI manifest and manifest.json list the same layers exactly when no two layers have the same content. */
  lemma ManifestsAgreeExactly(c: Codec, configs: seq<ConfigFile>, layers: seq<LayerFile>)
    requires ValidCodec(c) && Readable(layers)
    ensures OciLayers(c, layers) == ExpectedDocker(configs, layers).layers <==> AllDifferent(layers)
  {
    var hs := Hashes(c, layers);
    DifferentHashes(c, layers);
    DistinctFull(hs);
    if AllDifferent(layers) {
      forall i | 0 <= i < |layers| ensures OciLayers(c, layers)[i] == layers[i].data {
        assert hs[i] in hs;
        LastWithHash(c, layers, hs[i]);
      }
    }
  }

  // ----- reading manifest.json -----

  /** Following manifest.json of the finished tar gives the layers back one by one. */
  lemma DockerReadsBack(
    c: Codec, blobs: Tar, configs: seq<ConfigFile>, layers: seq<LayerFile>, manifests: seq<Descriptor>)
    requires ValidCodec(c) && OnlyBlobs(c, blobs) && Readable(layers) && HoldsLayers(c, blobs, layers)
    requires forall i :: 0 <= i < |configs| ==> Blob(c, configs[i].text) in blobs
    ensures ReadDocker(c, blobs + Trailer(c, manifests, DockerFor(c, configs, layers))) ==
            Some(ExpectedDocker(configs, layers))
  {
    var docker := DockerFor(c, configs, layers);
    var trailer := Trailer(c, manifests, docker);
    var tar := blobs + trailer;
    FindAfter(blobs + trailer[..2], trailer[2], []);
    assert blobs + trailer[..2] + [trailer[2]] + [] == tar;
    forall i | 0 <= i < |layers| ensures Find(tar, docker.layers[i]) == layers[i].data {
      assert layers[i] in layers;
      FindBlob(c, tar, layers[i].data.value);
    }
    if configs != [] {
      FindBlob(c, tar, configs[|configs| - 1].text);
    }
    assert ReadDocker(c, tar).value.layers == ExpectedDocker(configs, layers).layers;
  }

  /** The docker view: the config, every name, and every layer as added. */
  ghost predicate IsDocker(d: DockerImage, configs: seq<ConfigFile>, layers: seq<LayerFile>) {
    && (configs == [] ==> d.config == None)
    && (configs != [] ==> d.config == Some(configs[|configs| - 1].text))
    && |d.tags| == |configs| && (forall i :: 0 <= i < |configs| ==> d.tags[i] == configs[i].name)
    && |d.layers| == |layers| && (forall i :: 0 <= i < |layers| ==> d.layers[i] == layers[i].data)
  }

  function DescriptorsOf(layers: seq<(Descriptor, Bytes)>): seq<Descriptor> {
    seq(|layers|, i requires 0 <= i < |layers| => layers[i].0)
  }

  /** An image that was read back is the config and the added layers, each blob with its own digest. */
  ghost predicate IsImage(c: Codec, image: Image, config: ConfigFile, layers: seq<LayerFile>) {
    && image.config == (Descriptor(config.mediaType, c.sha(config.text), |config.text|), config.text)
    && ListsOnce(c, layers, DescriptorsOf(image.layers))
    && forall i :: 0 <= i < |image.layers| ==>
         c.sha(image.layers[i].1) == image.layers[i].0.digest && |image.layers[i].1| == image.layers[i].0.size
  }

  lemma ExpectedBlobs(c: Codec, layers: seq<LayerFile>)
    requires Readable(layers)
    ensures var expected := ExpectedLayers(c, layers);
            && DescriptorsOf(expected) == Entries(c, layers)
            && forall i :: 0 <= i < |expected| ==>
                 c.sha(expected[i].1) == expected[i].0.digest && |expected[i].1| == expected[i].0.size
  {
    EntriesAre(c, layers);
    DistinctSound(Hashes(c, layers));
  }

  lemma ExpectedIsImage(c: Codec, config: ConfigFile, layers: seq<LayerFile>)
    requires Readable(layers)
    ensures IsImage(c, ExpectedImage(c, config, layers), config, layers)
  {
    EntriesDeduplicate(c, layers);
    ExpectedBlobs(c, layers);
  }

  /** Following index.json of a tar yields every config with the added layers. */
  ghost predicate ReadsBack(c: Codec, tar: Tar, configs: seq<ConfigFile>, layers: seq<LayerFile>) {
    match ReadImages(c, tar)
    case None => false
    case Some(images) =>
      && |images| == |configs|
      && forall n :: 0 <= n < |configs| ==> images[n].Some? && IsImage(c, images[n].value, configs[n], layers)
  }

  lemma ExpectedReadsBack(c: Codec, tar: Tar, configs: seq<ConfigFile>, layers: seq<LayerFile>)
    requires Readable(layers) && ReadImages(c, tar) == Some(ExpectedImages(c, configs, layers))
    ensures ReadsBack(c, tar, configs, layers)
  {
    forall n | 0 <= n < |configs| ensures IsImage(c, ExpectedImage(c, configs[n], layers), configs[n], layers) {
      ExpectedIsImage(c, configs[n], layers);
    }
  }

  ghost predicate DockerReads(c: Codec, tar: Tar, configs: seq<ConfigFile>, layers: seq<LayerFile>) {
    ReadDocker(c, tar).Some? && IsDocker(ReadDocker(c, tar).value, configs, layers)
  }

  /** A tar with all blobs and the three files at its end can be read in both ways. */
  lemma FinishedLayout(
    c: Codec, blobs: Tar, configs: seq<ConfigFile>, layers: seq<LayerFile>, manifests: seq<Descriptor>)
    requires ValidCodec(c) && OnlyBlobs(c, blobs) && Readable(layers) && HoldsLayers(c, blobs, layers)
    requires HoldsManifests(c, blobs, configs, Entries(c, layers), manifests)
    ensures var tar := blobs + Trailer(c, manifests, DockerFor(c, configs, layers));
            && ReadsBack(c, tar, configs, layers) && DockerReads(c, tar, configs, layers)
            && Find(tar, LayoutFile) == Some(c.layout)
  {
    var docker := DockerFor(c, configs, layers);
    LayoutReadsBack(c, blobs, docker, configs, layers, manifests);
    DockerReadsBack(c, blobs, configs, layers, manifests);
    LayoutFileIsThere(c, blobs, docker, manifests);
    ExpectedReadsBack(c, blobs + Trailer(c, manifests, docker), configs, layers);
    ExpectedIsDocker(configs, layers);
  }

  lemma ExpectedIsDocker(configs: seq<ConfigFile>, layers: seq<LayerFile>)
    ensures IsDocker(ExpectedDocker(configs, layers), configs, layers)
  {
  }

  class Builder {
    var configs: seq<ConfigFile>
    var layers: seq<LayerFile>

    constructor ()
      ensures configs == [] && layers == []
    {
      configs, layers := [], [];
    }

    method AddConfig(config: ConfigFile)
      modifies this
      ensures configs == old(configs) + [config] && layers == old(layers)
    {
      configs := configs + [config];
    }

    method AddLayer(layer: LayerFile)
      modifies this
      ensures layers == old(layers) + [layer] && configs == old(configs)
    {
      layers := layers + [layer];
    }

    /** The layer loop: append each layer's blob, keep its descriptor and its path. */
    method WriteLayers(c: Codec) returns (r: Option<(Tar, seq<Descriptor>, seq<Path>)>)
      ensures r.None? <==> !Readable(layers)
      ensures r.Some? ==>
                && OnlyBlobs(c, r.value.0) && HoldsLayers(c, r.value.0, layers)
                && r.value.1 == Entries(c, layers)
                && r.value.2 == LayerPaths(c, layers)
    {
      var tar: Tar, digests: seq<Descriptor>, paths: seq<Path> := [], [], [];
      for n := 0 to |layers|
        invariant Readable(layers[..n])
        invariant digests == Entries(c, layers[..n])
        invariant OnlyBlobs(c, tar) && HoldsLayers(c, tar, layers[..n])
        invariant paths == LayerPaths(c, layers[..n])
      {
        if layers[n].data.None? {
          return None;
        }
        var data := layers[n].data.value;
        assert layers[..n + 1] == layers[..n] + [layers[n]];
        WriteLayer(c, tar, layers[..n], layers[n]);
        digests := Insert(digests, Describe(c, MediaType(layers[n].mediaType), data));
        tar := tar + [Blob(c, data)];
        paths := paths + [BlobPath(c.sha(data))];
      }
      assert layers[..|layers|] == layers;
      r := Some((tar, digests, paths));
    }

    /** The config loop: append config and manifest, keep the manifest's descriptor. */
    method WriteConfigs(c: Codec, start: Tar, digests: seq<Descriptor>)
      returns (tar: Tar, manifests: seq<Descriptor>, config: Option<Path>, tags: seq<string>)
      requires OnlyBlobs(c, start)
      ensures OnlyBlobs(c, tar) && start <= tar
      ensures HoldsManifests(c, tar, configs, digests, manifests)
      ensures config == ConfigPath(c, configs) && tags == Names(configs)
    {
      tar, manifests, config, tags := start, [], None, [];
      for n := 0 to |configs|
        invariant OnlyBlobs(c, tar) && start <= tar
        invariant HoldsManifests(c, tar, configs[..n], digests, manifests)
        invariant config == ConfigPath(c, configs[..n]) && tags == Names(configs[..n])
      {
        var manifest := ManifestFor(c, configs[n], digests);
        tar := tar + [Blob(c, configs[n].text)] + [Blob(c, manifest)];
        manifests := manifests + [Describe(c, MANIFEST_TYPE, manifest)];
        config, tags := Some(BlobPath(c.sha(configs[n].text))), tags + [configs[n].name];
      }
      assert configs[..|configs|] == configs;
    }

    /** Both loops: all blobs, the descriptors of the manifests and what manifest.json records. */
    method WriteBlobs(c: Codec) returns (r: Option<(Tar, seq<Descriptor>, DockerManifest)>)
      ensures r.None? <==> !Readable(layers)
      ensures r.Some? ==>
                && OnlyBlobs(c, r.value.0) && HoldsLayers(c, r.value.0, layers)
                && HoldsManifests(c, r.value.0, configs, Entries(c, layers), r.value.1)
                && r.value.2 == DockerFor(c, configs, layers)
    {
      var written := WriteLayers(c);
      if written.None? {
        return None;
      }
      var (start, digests, paths) := written.value;
      var tar, manifests, config, tags := WriteConfigs(c, start, digests);
      r := Some((tar, manifests, DockerManifest(config, tags, paths)));
    }

    /**
     Writes the layout.  It fails exactly when there are several configs or a layer cannot be read;
     otherwise following index.json yields each config with the added layers, every blob present with
     the digest and size its descriptor gives, de-duplicated by digest in first-added order and with
     the media type of the last add.  Following manifest.json yields every layer as added.
     */
    method Build(c: Codec) returns (r: Option<Tar>)
      ensures r.None? <==> |configs| > 1 || !Readable(layers)
      ensures r.Some? ==> BlobsOk(c, r.value)
      ensures r.Some? && ValidCodec(c) ==>
                && ReadsBack(c, r.value, configs, layers)
                && DockerReads(c, r.value, configs, layers)
                && Find(r.value, LayoutFile) == Some(c.layout)
    {
      if |configs| > 1 {
        return None;
      }
      var written := WriteBlobs(c);
      if written.None? {
        return None;
      }
      var (tar, manifests, docker) := written.value;
      if ValidCodec(c) {
        FinishedLayout(c, tar, configs, layers, manifests);
      }
      r := Some(tar + Trailer(c, manifests, docker));
    }
  }
}
