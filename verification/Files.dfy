/** Attachment bytes, their staging area and message links
  (`tree_agent/server/repositories/attachments.py`).

  SHA-256 is a parameter `sha`; that it does not collide on the contents at hand is a
  hypothesis exactly where deduplication relies on it. */
module Files {
  import opened Base

  type Byte = b: int | 0 <= b < 256
  type Bytes = seq<Byte>
  type Digest = nat

  const CHUNK_SIZE: nat := 1048576
  const MAX_BYTES: nat := 20971520
  const UPLOAD_TTL_MS: int := 86400000

  /** What the size column of an upload may hold. */
  type Size = n: nat | 0 < n <= MAX_BYTES witness 1

  datatype Status = Uploading | Committed | Expired

  datatype Upload = Upload(
    user: Id, target: Option<Id>, size: Size, digest: Option<Digest>, status: Status,
    received: int, committed: Option<Id>, createdAt: int, expiresAt: int)

  datatype Attachment = Attachment(digest: Digest, size: nat, chunkCount: nat)

  /** `attachment_uploads`, `attachment_upload_chunks`, `attachments`, `attachment_chunks`
      and `message_attachments`; a link maps (message, attachment) to its display order. */
  datatype Files = Files(
    uploads: map<Id, Upload>, staged: map<(Id, nat), Bytes>,
    attachments: map<Id, Attachment>, chunks: map<(Id, nat), Bytes>,
    links: map<(Id, Id), nat>)

  function ChunkCount(size: nat): nat { (size + CHUNK_SIZE - 1) / CHUNK_SIZE }

  /** Chunks 0..n-1 of `key`, joined. */
  function Joined(chunks: map<(Id, nat), Bytes>, key: Id, n: nat): Bytes {
    if n == 0 then []
    else Joined(chunks, key, n - 1) + if (key, n - 1) in chunks then chunks[(key, n - 1)] else []
  }

  /** The bytes of an attachment. */
  function Content(f: Files, a: Id): Bytes
    requires a in f.attachments
  {
    Joined(f.chunks, a, f.attachments[a].chunkCount)
  }

  /** `digest.update(chunk)` for each stored chunk, in order, and the running total. */
  method HashChunks(chunks: map<(Id, nat), Bytes>, key: Id, n: nat) returns (content: Bytes, total: nat)
    ensures content == Joined(chunks, key, n) && total == |content|
  {
    content, total := [], 0;
    for i := 0 to n
      invariant content == Joined(chunks, key, i) && total == |content|
    {
      if (key, i) in chunks {
        content := content + chunks[(key, i)];
        total := total + |chunks[(key, i)]|;
      }
    }
  }

  lemma {:induction false} JoinedDependsOn(a: map<(Id, nat), Bytes>, b: map<(Id, nat), Bytes>, x: Id, y: Id, n: nat)
    requires forall i: nat :: i < n ==> ((x, i) in a <==> (y, i) in b)
    requires forall i: nat :: i < n && (x, i) in a ==> a[(x, i)] == b[(y, i)]
    ensures Joined(a, x, n) == Joined(b, y, n)
    decreases n
  {
    if n > 0 { JoinedDependsOn(a, b, x, y, n - 1); }
  }

  // -------------------------------------------------------------- invariant

  /** A chunk never reaches past the declared size, nor past its own slot. */
  ghost predicate ChunkFits(size: nat, n: nat, bytes: Bytes) {
    0 < |bytes| <= CHUNK_SIZE && n * CHUNK_SIZE + |bytes| <= size
  }

  ghost predicate StagedOk(f: Files) {
    forall u: Id, n: nat :: (u, n) in f.staged ==>
      u in f.uploads && f.uploads[u].status == Uploading && ChunkFits(f.uploads[u].size, n, f.staged[(u, n)])
  }

  ghost predicate ReceivedOk(f: Files) {
    forall u :: u in f.uploads && f.uploads[u].status == Uploading ==>
      f.uploads[u].received == |Joined(f.staged, u, ChunkCount(f.uploads[u].size))|
  }

  predicate SameContent(a: Attachment, b: Attachment) { a.digest == b.digest && a.size == b.size }

  ghost predicate OnePerContent(f: Files) {
    forall a, b {:trigger SameContent(f.attachments[a], f.attachments[b])} ::
      a in f.attachments && b in f.attachments && SameContent(f.attachments[a], f.attachments[b]) ==> a == b
  }

  /** A published attachment: at most `MAX_BYTES` long, exactly its chunks, every one but
      the last full, and the bytes have the recorded length and hash. */
  ghost predicate Published(f: Files, sha: Bytes -> Digest, a: Id)
    requires a in f.attachments
  {
    var row := f.attachments[a];
    0 < row.size <= MAX_BYTES && row.chunkCount == ChunkCount(row.size)
    && (forall n: nat :: (a, n) in f.chunks <==> n < row.chunkCount)
    && (forall n: nat :: (a, n) in f.chunks && n + 1 < row.chunkCount ==> |f.chunks[(a, n)]| == CHUNK_SIZE)
    && |Content(f, a)| == row.size && sha(Content(f, a)) == row.digest
  }

  ghost predicate AllPublished(f: Files, sha: Bytes -> Digest) {
    (forall a :: a in f.attachments ==> Published(f, sha, a))
    && (forall a: Id, n: nat :: (a, n) in f.chunks ==> a in f.attachments)
  }

  ghost predicate RefsOk(f: Files) {
    (forall m: Id, a: Id :: (m, a) in f.links ==> a in f.attachments)
    && (forall u :: u in f.uploads && f.uploads[u].committed.Some? ==> f.uploads[u].committed.value in f.attachments)
  }

  /** No two attachments of a message have the same display order. */
  ghost predicate OrdersDiffer(links: map<(Id, Id), nat>) {
    forall j, k :: j in links && k in links && j.0 == k.0 && links[j] == links[k] ==> j == k
  }

  /** A display order none of the message's attachments has. */
  ghost predicate OrderFree(links: map<(Id, Id), nat>, message: Id, order: nat) {
    forall key :: key in links && key.0 == message ==> links[key] != order
  }

  ghost predicate FilesOk(f: Files, sha: Bytes -> Digest) {
    StagedOk(f) && ReceivedOk(f) && OnePerContent(f) && AllPublished(f, sha) && RefsOk(f)
  }

  // ------------------------------------------------------------ arithmetic


  lemma {:induction false} JoinedLength(chunks: map<(Id, nat), Bytes>, key: Id, n: nat)
    requires forall i: nat :: i < n && (key, i) in chunks ==> |chunks[(key, i)]| <= CHUNK_SIZE
    ensures |Joined(chunks, key, n)| <= n * CHUNK_SIZE
    ensures |Joined(chunks, key, n)| == n * CHUNK_SIZE ==>
              forall i: nat :: i < n ==> (key, i) in chunks && |chunks[(key, i)]| == CHUNK_SIZE
    decreases n
  {
    if n > 0 { JoinedLength(chunks, key, n - 1); }
  }

  /** The per-chunk bound and the total force every chunk but the last to be full. */
  lemma TotalForcesFullChunks(f: Files, u: Id)
    requires StagedOk(f) && u in f.uploads
    requires var size := f.uploads[u].size;
             |Joined(f.staged, u, ChunkCount(size))| == size && forall n: nat :: n < ChunkCount(size) ==> (u, n) in f.staged
    ensures forall n: nat :: n + 1 < ChunkCount(f.uploads[u].size) ==> |f.staged[(u, n)]| == CHUNK_SIZE
  {
    var size := f.uploads[u].size;
    var last := ChunkCount(size) - 1;
    assert ChunkFits(size, last, f.staged[(u, last)]);
    JoinedLength(f.staged, u, last);
  }

  lemma {:induction false} JoinedChange(before: map<(Id, nat), Bytes>, u: Id, k: nat, payload: Bytes, n: nat)
    requires k < n
    ensures var after := before[(u, k) := payload];
            |Joined(after, u, n)| == |Joined(before, u, n)| + |payload|
                                     - if (u, k) in before then |before[(u, k)]| else 0
    decreases n
  {
    var after := before[(u, k) := payload];
    if n - 1 == k {
      JoinedDependsOn(before, after, u, u, n - 1);
    } else {
      JoinedChange(before, u, k, payload, n - 1);
    }
  }

  // ------------------------------------------------------------- statements

  function CreateUpload(f: Files, id: Id, user: Id, target: Option<Id>, size: Size, digest: Option<Digest>, now: int): Files {
    f.(uploads := f.uploads[id := Upload(user, target, size, digest, Uploading, 0, None, now, now + UPLOAD_TTL_MS)])
  }

  /** `put_upload_chunk`: an upsert, and the received size moves by the difference. */
  function PutChunk(f: Files, u: Id, k: nat, payload: Bytes): Files
    requires u in f.uploads
  {
    var previous := if (u, k) in f.staged then |f.staged[(u, k)]| else 0;
    f.(staged := f.staged[(u, k) := payload],
       uploads := f.uploads[u := f.uploads[u].(received := f.uploads[u].received + |payload| - previous)])
  }

  function DropStaged(staged: map<(Id, nat), Bytes>, uploads: set<Id>): map<(Id, nat), Bytes> {
    map key | key in staged && key.0 !in uploads :: staged[key]
  }

  /** `expire_stale_uploads` */
  function ExpireStale(f: Files, now: int): Files {
    var stale := set u | u in f.uploads && f.uploads[u].status == Uploading && f.uploads[u].expiresAt <= now;
    f.(staged := DropStaged(f.staged, stale),
       uploads := map u | u in f.uploads ::
                    if u in stale then f.uploads[u].(status := Expired, committed := None) else f.uploads[u])
  }

  /** `purge_finished_uploads` */
  function PurgeFinished(f: Files, before: int): Files {
    f.(uploads := map u | u in f.uploads && !(f.uploads[u].status != Uploading && f.uploads[u].createdAt < before) :: f.uploads[u])
  }

  predicate ByHash(f: Files, a: Id, digest: Digest, size: nat) {
    a in f.attachments && f.attachments[a].digest == digest && f.attachments[a].size == size
  }

  /** `INSERT INTO attachment_chunks ... SELECT` over the first `n` staged rows of `u`. */
  function CopyChunks(chunks: map<(Id, nat), Bytes>, staged: map<(Id, nat), Bytes>, u: Id, a: Id, n: nat): (r: map<(Id, nat), Bytes>)
    ensures forall b: Id, k: nat :: (b, k) in r <==> (b, k) in chunks || (b == a && k < n && (u, k) in staged)
    ensures forall b: Id, k: nat :: (b, k) in r ==>
              r[(b, k)] == if b == a && k < n && (u, k) in staged then staged[(u, k)] else chunks[(b, k)]
  {
    if n == 0 then chunks
    else
      var most := CopyChunks(chunks, staged, u, a, n - 1);
      if (u, n - 1) in staged then most[(a, n - 1) := staged[(u, n - 1)]] else most
  }

  /** `create_from_upload`: the staged rows become the chunks of a new attachment. */
  function CreateFromUpload(f: Files, u: Id, a: Id, digest: Digest, size: nat, count: nat): Files {
    f.(attachments := f.attachments[a := Attachment(digest, size, count)],
       chunks := CopyChunks(f.chunks, f.staged, u, a, count))
  }

  /** `set_upload_status("committed")` then `drop_upload_chunks`. */
  function CloseUpload(f: Files, u: Id, a: Id): Files
    requires u in f.uploads
  {
    f.(uploads := f.uploads[u := f.uploads[u].(status := Committed, committed := Some(a))],
       staged := DropStaged(f.staged, {u}))
  }

  /** `link`: the next display order, and nothing if the pair exists. */
  function Link(f: Files, message: Id, a: Id, order: nat): Files {
    if (message, a) in f.links then f else f.(links := f.links[(message, a) := order])
  }

  function Unlink(f: Files, message: Id, a: Id): Files { f.(links := f.links - {(message, a)}) }

  // ----------------------------------------------- invariant preservation

  lemma PutChunkKeeps(f: Files, sha: Bytes -> Digest, u: Id, k: nat, payload: Bytes)
    requires FilesOk(f, sha) && u in f.uploads && f.uploads[u].status == Uploading
    requires ChunkFits(f.uploads[u].size, k, payload)
    ensures FilesOk(PutChunk(f, u, k, payload), sha)
  {
    var g := PutChunk(f, u, k, payload);
    forall x | x in g.uploads && g.uploads[x].status == Uploading
      ensures g.uploads[x].received == |Joined(g.staged, x, ChunkCount(g.uploads[x].size))|
    {
      var n := ChunkCount(g.uploads[x].size);
      if x == u {
        JoinedChange(f.staged, u, k, payload, n);
      } else {
        JoinedDependsOn(f.staged, g.staged, x, x, n);
      }
    }
    PublishedKept(f, g, sha);
  }

  /** Published attachments depend on nothing but their own rows. */
  lemma PublishedKept(f: Files, g: Files, sha: Bytes -> Digest)
    requires AllPublished(f, sha) && g.attachments == f.attachments && g.chunks == f.chunks
    ensures AllPublished(g, sha)
  {
    forall a | a in g.attachments ensures Published(g, sha, a) { assert Published(f, sha, a); }
  }

  /** Neither does staging look at more than its own columns. */
  lemma StagingKept(f: Files, g: Files)
    requires StagedOk(f) && ReceivedOk(f) && g.staged == f.staged && g.uploads.Keys == f.uploads.Keys
    requires forall u :: u in f.uploads ==>
               g.uploads[u].status == f.uploads[u].status && g.uploads[u].size == f.uploads[u].size
               && g.uploads[u].received == f.uploads[u].received
    ensures StagedOk(g) && ReceivedOk(g)
  {}

  /** Closing uploads and dropping their chunks leaves the others as they were. */
  lemma StagingDropped(f: Files, g: Files, closed: set<Id>)
    requires StagedOk(f) && ReceivedOk(f) && g.staged == DropStaged(f.staged, closed) && g.uploads.Keys == f.uploads.Keys
    requires forall u :: u in f.uploads ==>
               if u in closed then g.uploads[u].status != Uploading else g.uploads[u] == f.uploads[u]
    ensures StagedOk(g) && ReceivedOk(g)
  {
    forall x | x in g.uploads && g.uploads[x].status == Uploading
      ensures g.uploads[x].received == |Joined(g.staged, x, ChunkCount(g.uploads[x].size))|
    {
      JoinedDependsOn(f.staged, g.staged, x, x, ChunkCount(g.uploads[x].size));
    }
  }

  lemma CreateUploadKeeps(f: Files, sha: Bytes -> Digest, id: Id, user: Id, target: Option<Id>, size: Size, digest: Option<Digest>, now: int)
    requires FilesOk(f, sha) && id !in f.uploads
    ensures FilesOk(CreateUpload(f, id, user, target, size, digest, now), sha)
  {
    var g := CreateUpload(f, id, user, target, size, digest, now);
    assert forall n: nat :: (id, n) !in f.staged;
    NothingJoined(f.staged, id, ChunkCount(size));
    PublishedKept(f, g, sha);
  }

  lemma {:induction false} NothingJoined(chunks: map<(Id, nat), Bytes>, key: Id, n: nat)
    requires forall i: nat :: (key, i) !in chunks
    ensures Joined(chunks, key, n) == []
    decreases n
  {
    if n > 0 { NothingJoined(chunks, key, n - 1); }
  }

  lemma ExpireStaleKeeps(f: Files, sha: Bytes -> Digest, now: int)
    requires FilesOk(f, sha)
    ensures FilesOk(ExpireStale(f, now), sha)
  {
    var g := ExpireStale(f, now);
    StagingDropped(f, g, set u | u in f.uploads && f.uploads[u].status == Uploading && f.uploads[u].expiresAt <= now);
    PublishedKept(f, g, sha);
  }

  lemma PurgeFinishedKeeps(f: Files, sha: Bytes -> Digest, before: int)
    requires FilesOk(f, sha)
    ensures FilesOk(PurgeFinished(f, before), sha)
  {
    PublishedKept(f, PurgeFinished(f, before), sha);
  }

  lemma LinkKeeps(f: Files, sha: Bytes -> Digest, message: Id, a: Id, order: nat)
    requires FilesOk(f, sha) && a in f.attachments
    ensures FilesOk(Link(f, message, a, order), sha)
  {
    PublishedKept(f, Link(f, message, a, order), sha);
  }


  lemma LinkDiffers(f: Files, message: Id, a: Id, order: nat)
    requires OrdersDiffer(f.links) && OrderFree(f.links, message, order)
    ensures OrdersDiffer(Link(f, message, a, order).links)
  {}

  lemma FewerDiffer(links: map<(Id, Id), nat>, fewer: map<(Id, Id), nat>)
    requires OrdersDiffer(links) && fewer.Keys <= links.Keys && forall key :: key in fewer ==> fewer[key] == links[key]
    ensures OrdersDiffer(fewer)
  {}

  /** What `commit` checks before it publishes. */
  ghost predicate Complete(f: Files, u: Id)
    requires u in f.uploads
  {
    var n := ChunkCount(f.uploads[u].size);
    (forall k: nat :: (u, k) in f.staged <==> k < n)
    && |Joined(f.staged, u, n)| == f.uploads[u].size
  }

  /** Publishing a complete upload yields an attachment with exactly the staged bytes. */
  lemma CreateFromUploadKeeps(f: Files, sha: Bytes -> Digest, u: Id, a: Id)
    requires FilesOk(f, sha) && u in f.uploads && Complete(f, u) && a !in f.attachments
    requires var size := f.uploads[u].size;
             forall b :: b in f.attachments ==> !ByHash(f, b, sha(Joined(f.staged, u, ChunkCount(size))), size)
    ensures var size := f.uploads[u].size;
            var content := Joined(f.staged, u, ChunkCount(size));
            var g := CreateFromUpload(f, u, a, sha(content), size, ChunkCount(size));
            FilesOk(g, sha) && Content(g, a) == content
  {
    hide Published, Joined, ByHash;
    var size := f.uploads[u].size;
    var digest := sha(Joined(f.staged, u, ChunkCount(size)));
    var g := CreateFromUpload(f, u, a, digest, size, ChunkCount(size));
    NewPublished(f, sha, u, a);
    OthersPublished(f, sha, u, a, digest, size, ChunkCount(size));
    StagingKept(f, g);
    StillOnePerContent(f, u, a, digest, size, ChunkCount(size));
  }

  lemma StillOnePerContent(f: Files, u: Id, a: Id, digest: Digest, size: nat, n: nat)
    requires OnePerContent(f) && a !in f.attachments && forall b :: b in f.attachments ==> !ByHash(f, b, digest, size)
    ensures OnePerContent(CreateFromUpload(f, u, a, digest, size, n))
  {
    forall b | b in f.attachments ensures !SameContent(f.attachments[b], Attachment(digest, size, n)) { assert !ByHash(f, b, digest, size); }
  }


  lemma NewPublished(f: Files, sha: Bytes -> Digest, u: Id, a: Id)
    requires StagedOk(f) && u in f.uploads && Complete(f, u)
    requires forall k: nat :: (a, k) !in f.chunks
    ensures var size := f.uploads[u].size;
            var content := Joined(f.staged, u, ChunkCount(size));
            var g := CreateFromUpload(f, u, a, sha(content), size, ChunkCount(size));
            Published(g, sha, a) && Content(g, a) == content
  {
    var size := f.uploads[u].size;
    var n := ChunkCount(size);
    var g := CreateFromUpload(f, u, a, sha(Joined(f.staged, u, n)), size, n);
    JoinedDependsOn(f.staged, g.chunks, u, a, n);
    TotalForcesFullChunks(f, u);
  }

  lemma OthersPublished(f: Files, sha: Bytes -> Digest, u: Id, a: Id, digest: Digest, size: nat, n: nat)
    requires AllPublished(f, sha) && a !in f.attachments
    ensures var g := CreateFromUpload(f, u, a, digest, size, n);
            forall b :: b in f.attachments ==> b in g.attachments && Published(g, sha, b)
  {
    var g := CreateFromUpload(f, u, a, digest, size, n);
    forall b | b in f.attachments ensures b in g.attachments && Published(g, sha, b) {
      assert Published(f, sha, b);
      JoinedDependsOn(f.chunks, g.chunks, b, b, f.attachments[b].chunkCount);
    }
  }

  lemma CloseUploadKeeps(f: Files, sha: Bytes -> Digest, u: Id, a: Id)
    requires FilesOk(f, sha) && u in f.uploads && a in f.attachments
    ensures FilesOk(CloseUpload(f, u, a), sha)
  {
    var g := CloseUpload(f, u, a);
    StagingDropped(f, g, {u});
    PublishedKept(f, g, sha);
  }


  ghost predicate NoCollision(sha: Bytes -> Digest, x: Bytes, y: Bytes) { sha(x) == sha(y) ==> x == y }

  /** Equal hash and length mean equal bytes, if the hash does not collide on them: a
      deduplicated upload still reads back what was sent. */
  lemma DedupeIsSound(f: Files, sha: Bytes -> Digest, a: Id, content: Bytes)
    requires FilesOk(f, sha) && ByHash(f, a, sha(content), |content|)
    requires NoCollision(sha, Content(f, a), content)
    ensures Content(f, a) == content
  {
    assert Published(f, sha, a);
  }

  // ------------------------------------------------------- purging messages

  /** The attachments that lose a link when these messages go. */
  function Candidates(f: Files, gone: set<Id>): set<Id> { set key | key in f.links && key.0 in gone :: key.1 }

  /** `message_attachments` rows of the purged messages go, and staged uploads let go of
      their target. */
  function ReleaseMessages(f: Files, gone: set<Id>): Files {
    f.(links := map key | key in f.links && key.0 !in gone :: f.links[key],
       uploads := map u | u in f.uploads ::
                    if f.uploads[u].target.Some? && f.uploads[u].target.value in gone
                    then f.uploads[u].(target := None) else f.uploads[u])
  }

  predicate Referenced(f: Files, a: Id) { exists key :: key in f.links && key.1 == a }

  /** `delete_bytes` */
  function DeleteBytes(f: Files, a: Id): Files {
    f.(chunks := map key | key in f.chunks && key.0 != a :: f.chunks[key],
       attachments := f.attachments - {a},
       uploads := map u | u in f.uploads ::
                    if f.uploads[u].committed == Some(a) then f.uploads[u].(committed := None) else f.uploads[u])
  }

  lemma DeleteBytesSpares(f: Files, a: Id, b: Id)
    requires b in f.attachments && b != a
    ensures b in DeleteBytes(f, a).attachments
    ensures Content(DeleteBytes(f, a), b) == Content(f, b)
  {
    JoinedDependsOn(f.chunks, DeleteBytes(f, a).chunks, b, b, f.attachments[b].chunkCount);
  }

  lemma DeleteBytesPublished(f: Files, sha: Bytes -> Digest, a: Id)
    requires AllPublished(f, sha)
    ensures AllPublished(DeleteBytes(f, a), sha)
  {
    var g := DeleteBytes(f, a);
    forall b | b in g.attachments ensures Published(g, sha, b) {
      assert Published(f, sha, b);
      DeleteBytesSpares(f, a, b);
    }
  }

  lemma DeleteBytesKeeps(f: Files, sha: Bytes -> Digest, a: Id)
    requires FilesOk(f, sha) && !Referenced(f, a)
    ensures FilesOk(DeleteBytes(f, a), sha)
  {
    hide AllPublished, StagedOk, ReceivedOk;
    var g := DeleteBytes(f, a);
    DeleteBytesPublished(f, sha, a);
    StagingKept(f, g);
  }


  /** The last loop of a purge: candidates nothing refers to any more are destroyed. */
  function Collected(f: Files, candidates: seq<Id>): Files {
    if candidates == [] then f
    else
      var g := Collected(f, candidates[..|candidates| - 1]);
      var a := candidates[|candidates| - 1];
      if Referenced(g, a) then g else DeleteBytes(g, a)
  }

  /** No attachment still linked to any message is destroyed, every unlinked candidate is,
      and what stays keeps its bytes. */
  lemma {:induction false} CollectedExactly(f: Files, sha: Bytes -> Digest, candidates: seq<Id>)
    requires FilesOk(f, sha)
    ensures var g := Collected(f, candidates);
            FilesOk(g, sha) && g.links == f.links
            && (forall a :: a in g.attachments <==> a in f.attachments && !(a in candidates && !Referenced(f, a)))
            && (forall a :: a in g.attachments ==> g.attachments[a] == f.attachments[a] && Content(g, a) == Content(f, a))
    decreases |candidates|
  {
    if candidates != [] {
      var most, a := candidates[..|candidates| - 1], candidates[|candidates| - 1];
      CollectedExactly(f, sha, most);
      assert candidates == most + [a];
      var g := Collected(f, most);
      assert Referenced(g, a) <==> Referenced(f, a);
      if !Referenced(g, a) {
        DeleteBytesKeeps(g, sha, a);
        forall b | b in g.attachments && b != a ensures Content(DeleteBytes(g, a), b) == Content(g, b) {
          DeleteBytesSpares(g, a, b);
        }
      }
    }
  }

  lemma ReleaseMessagesKeeps(f: Files, sha: Bytes -> Digest, gone: set<Id>)
    requires FilesOk(f, sha)
    ensures FilesOk(ReleaseMessages(f, gone), sha)
  {
    var g := ReleaseMessages(f, gone);
    StagingKept(f, g);
    PublishedKept(f, g, sha);
  }
}
