/** `Client::save_content`: the chunked, resumable write of one blob under a lease. */
module ContentWrite {
  import opened Options
  import opened Content
  import opened Uploads

  const MAX_WRITE_CHUNK_SIZE_BYTES: int := 1024 * 1024 * 15
  const I64_MAX: int := 0x7FFF_FFFF_FFFF_FFFF

  datatype Request =
    | CreateLease(id: string)
    | DeleteLease(id: string)
    | Stat(ref: string, expected: Digest)
    | Write(ref: string, offset: nat, data: Bytes)
    | Commit(ref: string, total: nat, offset: nat, expected: Digest)

  datatype Reply = Done(offset: nat, digest: Option<Digest>) | AlreadyExists | Failure

  /** containerd: committed content, partial uploads by reference unless empty, and what each lease pins. */
  datatype Server = Server(
    content: map<Digest, Blob>,
    ingests: map<string, Bytes>,
    leases: map<string, set<Digest>>)

  predicate ContentAddressed(s: Server) {
    forall d :: d in s.content ==> s.content[d] == d.blob
  }

  function UploadOf(s: Server, ref: string): Bytes {
    if ref in s.ingests then s.ingests[ref] else []
  }

  function SetUpload(s: Server, ref: string, upload: Bytes): Server {
    s.(ingests := if upload == [] then s.ingests - {ref} else s.ingests[ref := upload])
  }

  function Pin(s: Server, id: string, d: Digest): Server {
    if id in s.leases then s.(leases := s.leases[id := s.leases[id] + {d}]) else s
  }

  /**
   The upload after a write at `offset`: a positive offset must be the current end, offset zero
   truncates.
   */
  function Extended(upload: Bytes, offset: nat, data: Bytes): Option<Bytes> {
    if offset > 0 && offset != |upload| then None
    else Some((if offset == 0 then [] else upload) + data)
  }

  /** What containerd does with one request.  The lease and the upload share the reference. */
  function Serve(s: Server, r: Request): (Server, Reply) {
    match r
    case CreateLease(id) =>
      if id in s.leases then (s, Failure) else (s.(leases := s.leases[id := {}]), Done(0, None))
    case DeleteLease(id) => (s.(leases := s.leases - {id}), Done(0, None))
    case Stat(ref, expected) =>
      if expected in s.content then (Pin(s, ref, expected), AlreadyExists)
      else (s, Done(|UploadOf(s, ref)|, None))
    case Write(ref, offset, data) =>
      (match Extended(UploadOf(s, ref), offset, data)
       case None => (s, Failure)
       case Some(upload) => (SetUpload(s, ref, upload), Done(|upload|, None)))
    case Commit(ref, total, offset, expected) =>
      (match Extended(UploadOf(s, ref), offset, [])
       case None => (s, Failure)
       case Some(upload) =>
         if (total > 0 && total != |upload|) || Sha256(Raw(upload)) != expected then (s, Failure)
         else if expected in s.content then (s, AlreadyExists)
         else (Pin(s.(content := s.content[expected := Raw(upload)], ingests := s.ingests - {ref}), ref, expected),
               Done(|upload|, Some(expected))))
  }

  datatype SaveResult = Saved(digest: Digest) | Error | Panicked

  datatype Chunk = Chunk(offset: nat, data: Bytes)

  function Flatten(chunks: seq<Chunk>): Bytes {
    if chunks == [] then [] else Flatten(chunks[..|chunks| - 1]) + chunks[|chunks| - 1].data
  }

  /** Chunks that follow one another from `start`: 15 MiB each, and the last one up to that. */
  ghost predicate Contiguous(chunks: seq<Chunk>, start: nat) {
    chunks != [] ==>
      && chunks[0].offset == start
      && 0 < |chunks[0].data| <= 15_728_640
      && (|chunks| > 1 ==> |chunks[0].data| == 15_728_640)
      && Contiguous(chunks[1..], start + |chunks[0].data|)
  }

  /** Messages whose offsets say how many bytes came before them. */
  ghost predicate InOrder(chunks: seq<Chunk>) {
    forall i :: 0 <= i < |chunks| ==> chunks[i].offset == |Flatten(chunks[..i])|
  }

  /** Reading content back from a stream: fails exactly when some offset does not match, else joins the data. */
  method ReadContent(chunks: seq<Chunk>) returns (r: Option<Bytes>)
    ensures r.Some? <==> InOrder(chunks)
    ensures r.Some? ==> r.value == Flatten(chunks)
  {
    var data: Bytes := [];
    for i := 0 to |chunks|
      invariant data == Flatten(chunks[..i])
      invariant forall j :: 0 <= j < i ==> chunks[j].offset == |Flatten(chunks[..j])|
    {
      if chunks[i].offset != |data| {
        return None;
      }
      assert chunks[..i + 1][..i] == chunks[..i];
      data := data + chunks[i].data;
    }
    assert chunks[..|chunks|] == chunks;
    r := Some(data);
  }

  lemma {:induction false} FlattenCons(chunk: Chunk, chunks: seq<Chunk>)
    ensures Flatten([chunk] + chunks) == chunk.data + Flatten(chunks)
  {
    if chunks == [] {
      assert [chunk] + chunks == [chunk] && [chunk][..0] == [];
    } else {
      var n := |chunks| - 1;
      var all, init, last := [chunk] + chunks, Flatten(chunks[..n]), chunks[n].data;
      FlattenCons(chunk, chunks[..n]);
      assert all[..n + 1] == [chunk] + chunks[..n] && all[n + 1] == chunks[n];
      assert Flatten(all) == Flatten(all[..n + 1]) + last;
      assert (chunk.data + init) + last == chunk.data + (init + last);
    }
  }

  /** What will become of the messages of a connection, by their number. */
  type Faults = nat -> Fate

  /** The `n` messages from number `from` on are all served. */
  ghost predicate AllServed(faults: Faults, from: nat, n: nat) {
    forall i :: from <= i < from + n ==> faults(i).Served?
  }

  ghost predicate NoFaults(faults: Faults, from: nat) {
    forall i :: from <= i ==> faults(i).Served?
  }

  /** Messages before a block are served together with the block. */
  lemma ServedTogether(faults: Faults, from: nat, m: nat, n: nat)
    ensures AllServed(faults, from, m + n) <==> AllServed(faults, from, m) && AllServed(faults, from + m, n)
  {
    if AllServed(faults, from, m) && AllServed(faults, from + m, n) {
      forall i | from <= i < from + (m + n) ensures faults(i).Served? {
        if i >= from + m { assert faults(i).Served?; }
      }
    }
  }

  /** The bytes from `start` to `end`; none when the upload is already past `end`. */
  function Part(data: Bytes, start: nat, end: nat): Bytes {
    if start <= end <= |data| then data[start..end] else []
  }

  function ChunkEnd(offset: nat, len: nat): nat {
    if offset + MAX_WRITE_CHUNK_SIZE_BYTES < len then offset + MAX_WRITE_CHUNK_SIZE_BYTES else len
  }

  /** How many chunks the loop sends from `offset` on before it ends or `offset + MAX` overflows. */
  function ChunksSent(offset: nat, len: nat): nat
    decreases len - offset
  {
    if offset >= len || offset + MAX_WRITE_CHUNK_SIZE_BYTES > I64_MAX then 0
    else 1 + ChunksSent(ChunkEnd(offset, len), len)
  }

  /** Does the loop meet an `offset + MAX` that overflows an i64? */
  predicate Overflows(offset: nat, len: nat)
    decreases len - offset
  {
    offset < len && (offset + MAX_WRITE_CHUNK_SIZE_BYTES > I64_MAX || Overflows(ChunkEnd(offset, len), len))
  }

  lemma {:induction false} OnlyHugeDataOverflows(offset: nat, len: nat)
    ensures Overflows(offset, len) ==> len > I64_MAX - MAX_WRITE_CHUNK_SIZE_BYTES
    decreases len - offset
  {
    if offset < len && offset + MAX_WRITE_CHUNK_SIZE_BYTES <= I64_MAX {
      OnlyHugeDataOverflows(ChunkEnd(offset, len), len);
    }
  }

  /** The offset up to which the chunks from `offset` on arrive when the first of them is message `i`. */
  function Arrived(offset: nat, len: nat, faults: Faults, i: nat): nat
    decreases len - offset
  {
    if offset >= len || offset + MAX_WRITE_CHUNK_SIZE_BYTES > I64_MAX then offset
    else if faults(i).Served? then Arrived(ChunkEnd(offset, len), len, faults, i + 1)
    else if TakesEffect(faults(i)) then ChunkEnd(offset, len)
    else offset
  }

  /** The chunks the loop sends from `offset` on when the first of them is message `i`. */
  function ChunksFrom(data: Bytes, offset: nat, faults: Faults, i: nat): seq<Chunk>
    decreases |data| - offset
  {
    if offset >= |data| || offset + MAX_WRITE_CHUNK_SIZE_BYTES > I64_MAX then []
    else
      var end := ChunkEnd(offset, |data|);
      [Chunk(offset, data[offset..end])] + if faults(i).Served? then ChunksFrom(data, end, faults, i + 1) else []
  }

  /** One turn of the loop, for the chunks sent `before` it. */
  lemma ChunksNext(before: seq<Chunk>, data: Bytes, offset: nat, faults: Faults, i: nat)
    requires offset < |data| && offset + MAX_WRITE_CHUNK_SIZE_BYTES <= I64_MAX
    ensures var end := ChunkEnd(offset, |data|);
            before + ChunksFrom(data, offset, faults, i) ==
              if faults(i).Served? then before + [Chunk(offset, data[offset..end])] + ChunksFrom(data, end, faults, i + 1)
              else before + [Chunk(offset, data[offset..end])]
  {
  }

  /** They follow one another, none over the limit, and if nothing stops the loop they are the data from there on. */
  lemma {:induction false} ChunksCover(data: Bytes, offset: nat, faults: Faults, i: nat)
    ensures Contiguous(ChunksFrom(data, offset, faults, i), offset)
    ensures !Overflows(offset, |data|) && AllServed(faults, i, ChunksSent(offset, |data|)) ==>
              Flatten(ChunksFrom(data, offset, faults, i)) == Part(data, offset, |data|)
    decreases |data| - offset
  {
    if offset < |data| && offset + MAX_WRITE_CHUNK_SIZE_BYTES <= I64_MAX {
      var end := ChunkEnd(offset, |data|);
      var chunk, rest := Chunk(offset, data[offset..end]), ChunksFrom(data, end, faults, i + 1);
      ChunksCover(data, end, faults, i + 1);
      if faults(i).Served? {
        assert ([chunk] + rest)[1..] == rest;
        FlattenCons(chunk, rest);
        Parts(data, offset, end, |data|);
        ServedTogether(faults, i, 1, ChunksSent(end, |data|));
      } else {
        assert [chunk][1..] == [];
      }
    }
  }

  /** The server after the bytes of `data` up to `end` have arrived in the upload. */
  function Grow(s: Server, id: string, data: Bytes, end: nat): Server {
    SetUpload(s, id, Grown(UploadOf(s, id), data, end))
  }

  lemma GrowNothing(s: Server, id: string, data: Bytes)
    requires forall r :: r in s.ingests ==> s.ingests[r] != []
    ensures Grow(s, id, data, |UploadOf(s, id)|) == s
  {
    var upload := UploadOf(s, id);
    assert Grown(upload, data, |upload|) == upload;
    if id in s.ingests { assert s.ingests[id := upload] == s.ingests; } else { assert s.ingests - {id} == s.ingests; }
  }

  lemma GrowMore(s: Server, id: string, data: Bytes, offset: nat, end: nat)
    requires |UploadOf(s, id)| <= offset < end <= |data|
    ensures var g := Grow(s, id, data, offset);
            && |UploadOf(g, id)| == offset
            && SetUpload(g, id, UploadOf(g, id) + data[offset..end]) == Grow(s, id, data, end)
  {
    GrowOn(UploadOf(s, id), data, offset, end);
  }

  function CommitOf(id: string, data: Bytes): Request {
    Commit(id, |data|, |data|, Sha256(Raw(data)))
  }

  /** The upload a commit at the end of `data` finds: the one there, or none of it for no data. */
  lemma CommitSees(stale: Bytes, data: Bytes)
    ensures var upload := Grown(stale, data, |data|);
            Extended(upload, |data|, []) ==
              if data == [] then Some([]) else if |upload| == |data| then Some(upload) else None
  {
    var upload, none: Bytes := Grown(stale, data, |data|), [];
    assert upload + none == upload && none + none == none;
  }

  /** containerd accepts the final commit exactly when the upload was resumable, and then stores `data`. */
  lemma CommitServed(s: Server, id: string, stale: Bytes, data: Bytes)
    requires UploadOf(s, id) == Grown(stale, data, |data|) && Sha256(Raw(data)) !in s.content
    ensures var expected := Sha256(Raw(data));
            Serve(s, CommitOf(id, data)) ==
              if Resumable(stale, data) then
                (Pin(s.(content := s.content[expected := Raw(data)], ingests := s.ingests - {id}), id, expected),
                 Done(|data|, Some(expected)))
              else
                (s, Failure)
  {
    CommitSees(stale, data);
    if data != [] { CompleteIsData(stale, data); }
  }

  /** The bytes are committed under their own digest and pinned by the lease. */
  predicate Stored(s: Server, id: string, data: Bytes) {
    var d := Sha256(Raw(data));
    d in s.content && s.content[d] == Raw(data) && id in s.leases && d in s.leases[id]
  }

  // ----- a save as at most three steps -----

  ghost predicate ValidServer(s: Server) {
    ContentAddressed(s) && forall r :: r in s.ingests ==> s.ingests[r] != []
  }

  function Leased(s: Server, id: string, fate: Fate): Server {
    if TakesEffect(fate) && id !in s.leases then s.(leases := s.leases[id := {}]) else s
  }

  /** An upload as a whole: existing content is pinned, a resumable upload committed and pinned, others only grow. */
  function Committed(s: Server, id: string, data: Bytes, fate: Fate): Server {
    var d := Sha256(Raw(data));
    if d in s.content then
      if TakesEffect(fate) then Pin(s, id, d) else s
    else if TakesEffect(fate) then
      if Resumable(UploadOf(s, id), data) then
        Pin(s.(content := s.content[d := Raw(data)], ingests := s.ingests - {id}), id, d)
      else Grow(s, id, data, |data|)
    else if fate.Cut? then Grow(s, id, data, fate.end)
    else s
  }

  function Dropped(s: Server, id: string, fate: Fate): Server {
    if TakesEffect(fate) then s.(leases := s.leases - {id}) else s
  }

  /**
   What becomes of an upload as a whole when its first chunk is message number `from`: the fate of the
   commit if it gets there, and cut off where the chunks stopped arriving otherwise.
   */
  ghost function TransferFate(stale: Bytes, data: Bytes, faults: Faults, from: nat): Fate {
    var n := ChunksSent(|stale|, |data|);
    if Overflows(|stale|, |data|) || !AllServed(faults, from, n) then Cut(Arrived(|stale|, |data|, faults, from))
    else if TakesEffect(faults(from + n)) then faults(from + n)
    else Cut(|data|)
  }

  /** The same from the stat on; existing content needs no more than the stat. */
  ghost function UploadFate(s: Server, id: string, data: Bytes, faults: Faults, from: nat): Fate {
    if Sha256(Raw(data)) in s.content then faults(from)
    else if !faults(from).Served? then Unserved
    else TransferFate(UploadOf(s, id), data, faults, from + 1)
  }

  /** The chunks an upload sends when its stat is message number `from`. */
  function UploadChunks(s: Server, id: string, data: Bytes, faults: Faults, from: nat): seq<Chunk> {
    if Sha256(Raw(data)) in s.content || !faults(from).Served? then []
    else ChunksFrom(data, |UploadOf(s, id)|, faults, from + 1)
  }

  /** New content, all messages of the chunk loop served, and an offset that overflows. */
  ghost predicate UploadPanics(s: Server, id: string, data: Bytes, faults: Faults, from: nat) {
    var start := |UploadOf(s, id)|;
    && Sha256(Raw(data)) !in s.content && Overflows(start, |data|)
    && AllServed(faults, from, 1 + ChunksSent(start, |data|))
  }

  /** The content is there, or its upload can be completed. */
  predicate Completable(s: Server, id: string, data: Bytes) {
    Sha256(Raw(data)) in s.content || Resumable(UploadOf(s, id), data)
  }

  /** When a save with no lost message succeeds. */
  predicate CanSave(s: Server, id: string, data: Bytes) {
    id !in s.leases && Completable(s, id, data)
  }

  /**
   The lease is free, the content is new and its upload can be completed, every message before the
   commit is served, and the commit is served but its reply is lost.
   */
  ghost predicate LosesOnlyTheCommitReply(s: Server, id: string, data: Bytes, faults: Faults, from: nat) {
    var start := |UploadOf(s, id)|;
    var commit := from + 2 + ChunksSent(start, |data|);
    && id !in s.leases && Sha256(Raw(data)) !in s.content && Resumable(UploadOf(s, id), data)
    && !Overflows(start, |data|)
    && AllServed(faults, from, commit - from)
    && faults(commit).ReplyLost?
  }

  /** The server after a save: the lease, the upload and, unless it succeeds, the drop of the lease. */
  function AfterFates(s: Server, id: string, data: Bytes, lease: Fate, upload: Fate, drop: Fate): Server {
    var leased := Leased(s, id, lease);
    if id in s.leases || !lease.Served? then leased
    else if upload.Served? && Completable(s, id, data) then Committed(leased, id, data, upload)
    else Dropped(Committed(leased, id, data, upload), id, drop)
  }

  /** A save succeeds: the lease is free and granted, and the upload succeeds as a whole. */
  ghost predicate Saves(s: Server, id: string, data: Bytes, faults: Faults, from: nat) {
    && id !in s.leases && faults(from).Served?
    && UploadFate(s, id, data, faults, from + 1).Served? && Completable(s, id, data)
  }

  ghost function AfterSave(s: Server, id: string, data: Bytes, faults: Faults, from: nat, drop: Fate): Server {
    AfterFates(s, id, data, faults(from), UploadFate(s, id, data, faults, from + 1), drop)
  }

  function SaveChunks(s: Server, id: string, data: Bytes, faults: Faults, from: nat): seq<Chunk> {
    if id in s.leases || !faults(from).Served? then [] else UploadChunks(s, id, data, faults, from + 1)
  }

  lemma SaveChunksCover(s: Server, id: string, data: Bytes, faults: Faults, from: nat)
    ensures var sent, start := SaveChunks(s, id, data, faults, from), |UploadOf(s, id)|;
            && Contiguous(sent, start)
            && (Saves(s, id, data, faults, from) && Sha256(Raw(data)) !in s.content ==>
                  Flatten(sent) == Part(data, start, |data|))
  {
    ChunksCover(data, |UploadOf(s, id)|, faults, from + 2);
    if Sha256(Raw(data)) !in s.content {
      UploadFateMeans(s, id, data, faults, from + 1);
      ServedTogether(faults, from + 1, 1, ChunksSent(|UploadOf(s, id)|, |data|));
    }
  }

  /** What an upload as a whole does to the content and to its own lease. */
  lemma CommittedContent(s: Server, id: string, data: Bytes, fate: Fate)
    requires ValidServer(s)
    ensures var s', d := Committed(s, id, data, fate), Sha256(Raw(data));
            && ValidServer(s') && s'.leases.Keys == s.leases.Keys
            && s'.content == (if TakesEffect(fate) && Completable(s, id, data) then s.content[d := Raw(data)] else s.content)
            && (TakesEffect(fate) && Completable(s, id, data) && id in s.leases ==> d in s'.leases[id])
  {
  }

  /** An upload that does not store the data leaves one that is as good for it. */
  lemma CommittedUpload(s: Server, id: string, data: Bytes, fate: Fate)
    requires Sha256(Raw(data)) !in Committed(s, id, data, fate).content
    ensures Resumable(UploadOf(Committed(s, id, data, fate), id), data) <==> Resumable(UploadOf(s, id), data)
  {
    GrowingKeepsResumable(UploadOf(s, id), data, |data|);
    if fate.Cut? { GrowingKeepsResumable(UploadOf(s, id), data, fate.end); }
  }

  /** New content: the upload as a whole has the fate of the commit exactly when everything before it is served. */
  lemma UploadFateMeans(s: Server, id: string, data: Bytes, faults: Faults, from: nat)
    requires Sha256(Raw(data)) !in s.content
    ensures var n, fate := 1 + ChunksSent(|UploadOf(s, id)|, |data|), UploadFate(s, id, data, faults, from);
            && (TakesEffect(fate) <==>
                  && !Overflows(|UploadOf(s, id)|, |data|) && AllServed(faults, from, n)
                  && TakesEffect(faults(from + n)))
            && (TakesEffect(fate) ==> fate == faults(from + n))
  {
    ServedTogether(faults, from, 1, ChunksSent(|UploadOf(s, id)|, |data|));
  }

  /** What a save does to the content, its lease and its upload, from the fates of its three steps. */
  lemma AfterFatesMeans(s: Server, id: string, data: Bytes, lease: Fate, upload: Fate, drop: Fate)
    requires ValidServer(s)
    ensures var s', d := AfterFates(s, id, data, lease, upload, drop), Sha256(Raw(data));
            var stores := id !in s.leases && lease.Served? && TakesEffect(upload) && Completable(s, id, data);
            && ValidServer(s')
            && s'.content == (if stores then s.content[d := Raw(data)] else s.content)
            && (stores && upload.Served? ==> Stored(s', id, data))
            && (d !in s'.content ==> (Resumable(UploadOf(s', id), data) <==> Resumable(UploadOf(s, id), data)))
  {
    var leased := Leased(s, id, lease);
    assert UploadOf(leased, id) == UploadOf(s, id);
    if id !in s.leases && lease.Served? {
      CommittedContent(leased, id, data, upload);
      if Sha256(Raw(data)) !in Committed(leased, id, data, upload).content {
        CommittedUpload(leased, id, data, upload);
      }
    }
  }

  /** A save that succeeds stores the data; one that fails adds it exactly when only the commit's reply is lost. */
  lemma AfterSaveMeans(s: Server, id: string, data: Bytes, faults: Faults, from: nat, drop: Fate)
    requires ValidServer(s)
    ensures var s' := AfterSave(s, id, data, faults, from, drop);
            && ValidServer(s')
            && if Saves(s, id, data, faults, from) then Stored(s', id, data)
               else (s'.content != s.content <==> LosesOnlyTheCommitReply(s, id, data, faults, from))
    ensures var s' := AfterSave(s, id, data, faults, from, drop);
            Sha256(Raw(data)) !in s'.content ==> (Resumable(UploadOf(s', id), data) <==> Resumable(UploadOf(s, id), data))
  {
    var d, upload := Sha256(Raw(data)), UploadFate(s, id, data, faults, from + 1);
    AfterFatesMeans(s, id, data, faults(from), upload, drop);
    if d !in s.content {
      ReplyLostMeans(s, id, data, faults, from);
      assert d in s.content[d := Raw(data)];
    } else {
      assert s.content[d := Raw(data)] == s.content;
    }
  }

  lemma ReplyLostMeans(s: Server, id: string, data: Bytes, faults: Faults, from: nat)
    requires Sha256(Raw(data)) !in s.content
    ensures LosesOnlyTheCommitReply(s, id, data, faults, from) <==>
            && id !in s.leases && faults(from).Served? && Resumable(UploadOf(s, id), data)
            && UploadFate(s, id, data, faults, from + 1).ReplyLost?
  {
    UploadFateMeans(s, id, data, faults, from + 1);
    ServedTogether(faults, from, 1, 1 + ChunksSent(|UploadOf(s, id)|, |data|));
  }

  lemma FaultlessSave(s: Server, id: string, data: Bytes, faults: Faults, from: nat)
    requires NoFaults(faults, from)
    ensures Saves(s, id, data, faults, from) <==>
              && CanSave(s, id, data)
              && (Sha256(Raw(data)) in s.content || !Overflows(|UploadOf(s, id)|, |data|))
    ensures id !in s.leases ==>
              (UploadPanics(s, id, data, faults, from + 1) <==>
               Sha256(Raw(data)) !in s.content && Overflows(|UploadOf(s, id)|, |data|))
  {
    var n := ChunksSent(|UploadOf(s, id)|, |data|);
    assert faults(from).Served? && faults(from + 1).Served?;
    assert AllServed(faults, from + 2, n) && faults(from + 2 + n).Served?;
  }

  /** The checks of the final reply: it must report every byte and the digest of the data, whatever the server says. */
  function Checked(reply: Reply, data: Bytes): (r: SaveResult)
    ensures r.Saved? <==> reply == Done(|data|, Some(Sha256(Raw(data))))
    ensures r.Saved? ==> r.digest == Sha256(Raw(data))
    ensures !r.Panicked?
  {
    if !reply.Done? || reply.offset != |data| || reply.digest != Some(Sha256(Raw(data))) then Error
    else Saved(reply.digest.value)
  }

  datatype WriteOutcome = Written | Broken | Overflow

  /** One client's connection to containerd.  `faults` is what will become of its messages. */
  class Connection {
    const faults: Faults
    var server: Server
    var next: nat               // number of the next message
    var chunks: seq<Chunk>      // every chunk sent

    constructor (server: Server, faults: Faults)
      ensures this.server == server && this.faults == faults && next == 0 && chunks == []
    {
      this.server, this.faults, next, chunks := server, faults, 0, [];
    }

    /** `send_message` and the unary calls: send one request and wait for its reply. */
    method Send(r: Request) returns (reply: Reply)
      modifies this
      ensures server == if TakesEffect(faults(old(next))) then Serve(old(server), r).0 else old(server)
      ensures reply == if faults(old(next)).Served? then Serve(old(server), r).1 else Failure
      ensures chunks == old(chunks) + if r.Write? then [Chunk(r.offset, r.data)] else []
      ensures next == old(next) + 1
    {
      var fate := faults(next);
      next := next + 1;
      if r.Write? { chunks := chunks + [Chunk(r.offset, r.data)]; }
      var served := Serve(server, r);
      if TakesEffect(fate) { server := served.0; }
      reply := if fate.Served? then served.1 else Failure;
    }

    /**
     One turn of the chunk loop: send the bytes from `offset`, at most `MAX` of them, for an upload
     that began on server `before`.
     */
    method SendChunk(data: Bytes, id: string, offset: nat, ghost before: Server) returns (ok: bool, end: nat)
      requires |UploadOf(before, id)| <= offset < |data| && server == Grow(before, id, data, offset)
      modifies this
      ensures end == ChunkEnd(offset, |data|)
      ensures server == Grow(before, id, data, if TakesEffect(faults(old(next))) then end else offset)
      ensures chunks == old(chunks) + [Chunk(offset, data[offset..end])]
      ensures ok <==> faults(old(next)).Served?
      ensures next == old(next) + 1
    {
      end := ChunkEnd(offset, |data|);
      GrowMore(before, id, data, offset, end);
      var reply := Send(Write(id, offset, data[offset..end]));
      ok := !reply.Failure?;
    }

    /** All messages from `from` to `i` were served, and the loop goes on at `offset` as it began at `start`. */
    ghost predicate SameRest(start: nat, len: nat, from: nat, offset: nat, i: nat) {
      && from <= i && AllServed(faults, from, i - from)
      && i + ChunksSent(offset, len) == from + ChunksSent(start, len)
      && Arrived(offset, len, faults, i) == Arrived(start, len, faults, from)
      && Overflows(offset, len) == Overflows(start, len)
    }

    lemma RestNext(start: nat, len: nat, from: nat, offset: nat, i: nat)
      requires SameRest(start, len, from, offset, i) && offset < len && offset + MAX_WRITE_CHUNK_SIZE_BYTES <= I64_MAX
      ensures faults(i).Served? ==> SameRest(start, len, from, ChunkEnd(offset, len), i + 1)
      ensures !faults(i).Served? ==> !AllServed(faults, from, ChunksSent(start, len))
    {
    }

    /**
     The chunk loop.  It sends `data` from `start` to its end in contiguous chunks, each once, and
     stops early exactly when a message is not served or `offset + MAX` overflows an i64.  The upload
     then holds exactly the bytes that arrived.
     */
    method WriteChunks(data: Bytes, id: string, start: nat)
      returns (outcome: WriteOutcome)
      requires |data| <= I64_MAX && ValidServer(server) && |UploadOf(server, id)| == start
      modifies this
      ensures server == Grow(old(server), id, data, Arrived(start, |data|, faults, old(next)))
      ensures outcome.Written? ==> server == Grow(old(server), id, data, |data|)
      ensures outcome.Broken? <==> !AllServed(faults, old(next), ChunksSent(start, |data|))
      ensures !outcome.Broken? ==> (outcome.Overflow? <==> Overflows(start, |data|))
      ensures outcome.Written? ==> next == old(next) + ChunksSent(start, |data|)
      ensures next >= old(next)
      ensures chunks == old(chunks) + ChunksFrom(data, start, faults, old(next))
    {
      var offset := start;
      GrowNothing(server, id, data);
      while offset < |data|
        invariant server == Grow(old(server), id, data, offset)
        invariant start == offset || start < offset <= |data|
        invariant SameRest(start, |data|, old(next), offset, next)
        invariant chunks + ChunksFrom(data, offset, faults, next) == old(chunks) + ChunksFrom(data, start, faults, old(next))
      {
        if offset + MAX_WRITE_CHUNK_SIZE_BYTES > I64_MAX {
          outcome := Overflow;
          return;
        }
        ChunksNext(chunks, data, offset, faults, next);
        RestNext(start, |data|, old(next), offset, next);
        var ok, end := SendChunk(data, id, offset, old(server));
        if !ok {
          outcome := Broken;
          return;
        }
        offset := end;
      }
      outcome := Written;
    }

    /** The final commit and the checks of its reply; `before` is the server the upload began with. */
    method CommitUpload(data: Bytes, id: string, ghost before: Server) returns (r: SaveResult)
      requires Sha256(Raw(data)) !in server.content && server == Grow(before, id, data, |data|)
      modifies this
      ensures var fate := if TakesEffect(faults(old(next))) then faults(old(next)) else Cut(|data|);
              && server == Committed(before, id, data, fate)
              && r == if fate.Served? && Resumable(UploadOf(before, id), data) then Saved(Sha256(Raw(data))) else Error
      ensures chunks == old(chunks) && next == old(next) + 1
    {
      CommitServed(server, id, UploadOf(before, id), data);
      assert server.ingests - {id} == before.ingests - {id};
      var reply := Send(CommitOf(id, data));
      r := Checked(reply, data);
    }

    /** From the first reply on: send the chunks, commit, and check the final reply. */
    method Transfer(data: Bytes, id: string, start: nat) returns (r: SaveResult)
      requires |data| <= I64_MAX && ValidServer(server) && Sha256(Raw(data)) !in server.content
      requires |UploadOf(server, id)| == start
      modifies this
      ensures var stale := UploadOf(old(server), id);
              var fate := TransferFate(stale, data, faults, old(next));
              && server == Committed(old(server), id, data, fate)
              && (r.Saved? <==> fate.Served? && Resumable(stale, data))
      ensures r.Saved? ==> r.digest == Sha256(Raw(data))
      ensures r.Panicked? <==> Overflows(start, |data|) && AllServed(faults, old(next), ChunksSent(start, |data|))
      ensures next >= old(next)
      ensures chunks == old(chunks) + ChunksFrom(data, start, faults, old(next))
    {
      ghost var before := server;
      var outcome := WriteChunks(data, id, start);
      if outcome.Overflow? { r := Panicked; return; }
      if outcome.Broken? { r := Error; return; }
      r := CommitUpload(data, id, before);
    }

    /** Stat, then transfer unless the content is already there; the lease is held. */
    method Upload(data: Bytes, id: string) returns (r: SaveResult)
      requires |data| <= I64_MAX && ValidServer(server)
      modifies this
      ensures var fate := UploadFate(old(server), id, data, faults, old(next));
              && server == Committed(old(server), id, data, fate)
              && (r.Saved? <==> fate.Served? && Completable(old(server), id, data))
      ensures r.Saved? ==> r.digest == Sha256(Raw(data))
      ensures r.Panicked? <==> UploadPanics(old(server), id, data, faults, old(next))
      ensures next > old(next)
      ensures chunks == old(chunks) + UploadChunks(old(server), id, data, faults, old(next))
    {
      var expected := Sha256(Raw(data));
      ServedTogether(faults, next, 1, ChunksSent(|UploadOf(server, id)|, |data|));
      var stat := Send(Stat(id, expected));
      if stat.AlreadyExists? {
        r := Saved(expected);
      } else if stat.Failure? {
        r := Error;
      } else {
        r := Transfer(data, id, stat.offset);
      }
    }

    /** The lease, the upload and, if it fails, the drop of the lease guard on the way out. */
    method LeaseAndUpload(data: Bytes, id: string) returns (r: SaveResult)
      requires |data| <= I64_MAX && ValidServer(server)
      modifies this
      ensures r.Saved? <==> Saves(old(server), id, data, faults, old(next))
      ensures r.Saved? ==> r.digest == Sha256(Raw(data))
      ensures r.Panicked? <==>
                && id !in old(server.leases) && faults(old(next)).Served?
                && UploadPanics(old(server), id, data, faults, old(next) + 1)
      ensures next > old(next)
      ensures server == AfterSave(old(server), id, data, faults, old(next), faults(next - 1))
      ensures chunks == old(chunks) + SaveChunks(old(server), id, data, faults, old(next))
    {
      var lease := Send(CreateLease(id));
      if lease.Failure? {
        r := Error;
        return;
      }
      r := Upload(data, id);
      if !r.Saved? {
        var _ := Send(DeleteLease(id));
      }
    }

    /**
     `save_content`.  Whatever partial upload was left behind and whatever messages are lost, success
     means the data is committed under its own digest and leased.  Failure changes the committed
     content exactly when only the reply to the commit is lost, and otherwise leaves an upload that is
     as good for the data as the one it found.  With no lost message it succeeds exactly when the
     lease is free and the content exists or the left-over upload is a prefix of it; an error then
     recurs when the save is tried again.
     */
    method SaveContent(data: Bytes, id: string) returns (r: SaveResult)
      requires |data| <= I64_MAX && ValidServer(server)
      modifies this
      ensures ValidServer(server)
      ensures r.Saved? <==> Saves(old(server), id, data, faults, old(next))
      ensures r.Saved? ==> r.digest == Sha256(Raw(data)) && Stored(server, id, data)
      ensures !r.Saved? ==>
                (server.content != old(server.content) <==>
                 LosesOnlyTheCommitReply(old(server), id, data, faults, old(next)))
      ensures Sha256(Raw(data)) !in server.content ==>
                (Resumable(UploadOf(server, id), data) <==> Resumable(UploadOf(old(server), id), data))
      ensures r.Panicked? ==> |data| > I64_MAX - MAX_WRITE_CHUNK_SIZE_BYTES
      ensures NoFaults(faults, old(next)) && !r.Panicked? ==> (r.Saved? <==> CanSave(old(server), id, data))
      ensures NoFaults(faults, old(next)) && r.Error? ==> !CanSave(server, id, data)
      ensures next > old(next)
      ensures server == AfterSave(old(server), id, data, faults, old(next), faults(next - 1))
      ensures var sent, start := SaveChunks(old(server), id, data, faults, old(next)), |UploadOf(old(server), id)|;
              && chunks == old(chunks) + sent && Contiguous(sent, start)
              && (r.Saved? && Sha256(Raw(data)) !in old(server.content) ==> Flatten(sent) == Part(data, start, |data|))
    {
      r := LeaseAndUpload(data, id);
      SaveChunksCover(old(server), id, data, faults, old(next));
      AfterSaveMeans(old(server), id, data, faults, old(next), faults(next - 1));
      OnlyHugeDataOverflows(|UploadOf(old(server), id)|, |data|);
      if NoFaults(faults, old(next)) {
        FaultlessSave(old(server), id, data, faults, old(next));
        StillLeased(old(server), id, data, faults, old(next), faults(next - 1));
      }
    }
  }

  /**
   A save that failed for whatever reason can be resumed: if the upload it found could be completed and
   its lease is gone, a second save whose messages are served succeeds.
   */
  lemma RetrySucceeds(
    s: Server, id: string, data: Bytes, faults: Faults, from: nat, drop: Fate, later: Faults, at: nat)
    requires ValidServer(s) && |data| <= I64_MAX - MAX_WRITE_CHUNK_SIZE_BYTES && Completable(s, id, data)
    requires id !in AfterSave(s, id, data, faults, from, drop).leases && NoFaults(later, at)
    ensures Saves(AfterSave(s, id, data, faults, from, drop), id, data, later, at)
  {
    var s', upload := AfterSave(s, id, data, faults, from, drop), UploadFate(s, id, data, faults, from + 1);
    AfterFatesMeans(s, id, data, faults(from), upload, drop);
    FaultlessSave(s', id, data, later, at);
    OnlyHugeDataOverflows(|UploadOf(s', id)|, |data|);
  }

  /** A lease that stands in the way, or was dropped again, when no message is lost. */
  lemma StillLeased(s: Server, id: string, data: Bytes, faults: Faults, from: nat, drop: Fate)
    requires NoFaults(faults, from)
    ensures id in s.leases ==> id in AfterSave(s, id, data, faults, from, drop).leases
  {
    assert faults(from).Served?;
  }

  /** An empty server, three served messages and a commit whose reply is lost: the save fails and the data is there. */
  method FailedSaveThatStores() returns (c: Connection, r: SaveResult)
    ensures r.Error? && Sha256(Raw([7])) in c.server.content
  {
    var faults: Faults := (i: nat) => if i == 3 then ReplyLost else Served;
    c := new Connection(Server(map[], map[], map[]), faults);
    assert ChunkEnd(0, 1) == 1 && ChunksSent(1, 1) == 0;
    assert ChunksSent(0, 1) == 1;
    r := c.SaveContent([7], "a");
  }

  /** The server after a save of [7] whose only chunk arrives without a reply. */
  lemma CutOffServer(faults: Faults, drop: Fate)
    requires TakesEffect(drop) && forall i :: faults(i) == if i == 2 then ReplyLost else Served
    ensures var s := Server(map[], map[], map[]);
            && !Saves(s, "a", [7], faults, 0)
            && AfterSave(s, "a", [7], faults, 0, drop) == Server(map[], map["a" := [7]], map[])
  {
    var s, data := Server(map[], map[], map[]), [7];
    assert ChunkEnd(0, 1) == 1 && ChunksSent(1, 1) == 0;
    assert ChunksSent(0, 1) == 1 && Arrived(0, 1, faults, 2) == 1;
    assert !faults(2).Served?;
    assert UploadFate(s, "a", data, faults, 1) == Cut(1);
    var leased := Leased(s, "a", Served);
    assert leased == Server(map[], map[], map["a" := {}]);
    assert Grown([], data, 1) == data;
    assert Committed(leased, "a", data, Cut(1)) == Server(map[], map["a" := data], map["a" := {}]);
  }

  /** A save whose only chunk arrives without a reply: it fails and leaves its byte in the upload. */
  method CutOffSave() returns (r: SaveResult, server: Server)
    ensures r.Error? && server == Server(map[], map["a" := [7]], map[])
  {
    var faults: Faults := (i: nat) => if i == 2 then ReplyLost else Served;
    var c := new Connection(Server(map[], map[], map[]), faults);
    CutOffServer(faults, Served);
    CutOffServer(faults, ReplyLost);
    r := c.SaveContent([7], "a");
    server := c.server;
  }

  /** A save of another blob with all messages served: it fails, the lease is free again and the upload still in the way. */
  method BlockedSave(c: Connection) returns (r: SaveResult)
    requires ValidServer(c.server) && c.server.leases == map[] && c.server.content == map[]
    requires !Resumable(UploadOf(c.server, "a"), [8]) && NoFaults(c.faults, c.next)
    modifies c
    ensures r.Error? && c.next >= old(c.next)
    ensures ValidServer(c.server) && c.server.leases == map[] && c.server.content == map[]
    ensures !Resumable(UploadOf(c.server, "a"), [8])
  {
    ghost var before := c.server;
    r := c.SaveContent([8], "a");
    assert Leased(before, "a", Served).leases == map["a" := {}];
  }

  /**
   The reference of an upload is the engine's, not the blob's: after a save of one blob was cut off, saves of
   another blob fail one after the other although all their messages are served and the lease is free.
   */
  method CutOffSaveBlocksOthers()
    returns (cut: SaveResult, c: Connection, first: SaveResult, second: SaveResult)
    ensures cut.Error? && first.Error? && second.Error?
    ensures NoFaults(c.faults, 0) && c.server.leases == map[] && !Resumable(UploadOf(c.server, "a"), [8])
  {
    var server;
    cut, server := CutOffSave();
    c := new Connection(server, (i: nat) => Served);
    assert UploadOf(c.server, "a")[0] != 8;
    first := BlockedSave(c);
    second := BlockedSave(c);
  }
}
