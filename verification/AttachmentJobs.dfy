/** The attachment jobs of `tree_agent/server/services/attachments.py`: initiate, put a
  chunk, commit with deduplication, detach. `Transfers` follows them over whole runs. */
module AttachmentJobs {
  import opened Base
  import opened Tables
  import opened Files
  import opened Schema
  import opened ConversationJobs
  import opened MessageJobs

  // ---------------------------------------------------------------- initiate

  function InitiateVerdict(d: Database, actor: Actor, conversation: Id, size: int, target: Option<Id>): (r: Outcome)
    ensures r == Done ==> 0 < size <= MAX_BYTES && (target.Some? ==> LiveMessage(d.messages, target.value))
  {
    if size <= 0 then Failed(Validation)
    else if size > MAX_BYTES then Failed(PayloadTooLarge)
    else if ConversationGate(d, actor, conversation).Failed? then ConversationGate(d, actor, conversation)
    else if target.Some? && !(LiveMessage(d.messages, target.value) && d.messages[target.value].conversation == conversation)
    then Failed(NotFound)
    else Done
  }

  lemma InitiateKeeps(d: Database, sha: Bytes -> Digest, id: Id, user: Id, target: Option<Id>, size: Size, digest: Option<Digest>, now: int)
    requires Inv(d, sha) && id !in d.files.uploads && (target.Some? ==> target.value in d.messages)
    ensures Inv(d.(files := CreateUpload(d.files, id, user, target, size, digest, now)), sha)
  {
    var f := CreateUpload(d.files, id, user, target, size, digest, now);
    CreateUploadKeeps(d.files, sha, id, user, target, size, digest, now);
    UploadRowLinked(d.messages, d.files, f, id);
  }

  lemma UploadRowLinked(m: Messages, f: Files, g: Files, u: Id)
    requires FilesLinked(m, f) && g.links == f.links && u in g.uploads && g.uploads == f.uploads[u := g.uploads[u]]
    requires g.uploads[u].target.Some? ==> g.uploads[u].target.value in m
    ensures FilesLinked(m, g)
  {}

  /** `initiate` */
  method Initiate(db: Handle, actor: Actor, conversation: Id, size: int, digest: Option<Digest>, target: Option<Id>, id: Id, now: int)
    returns (r: Outcome)
    modifies db
    ensures r == InitiateVerdict(old(db.tables), actor, conversation, size, target)
    ensures db.tables == if r == Done
                         then old(db.tables).(files := CreateUpload(old(db.tables.files), id, actor.id, target, size, digest, now))
                         else old(db.tables)
  {
    if size <= 0 {
      return Failed(Validation);
    }
    if size > MAX_BYTES {
      return Failed(PayloadTooLarge);
    }
    r := CheckConversation(db, actor, conversation);
    if r.Failed? {
      return;
    }
    if target.Some? {
      if !LiveMessage(db.tables.messages, target.value) || db.tables.messages[target.value].conversation != conversation {
        return Failed(NotFound);
      }
    }
    db.tables := db.tables.(files := CreateUpload(db.tables.files, id, actor.id, target, size, digest, now));
  }

  // --------------------------------------------------------------- put chunk

  /** `_open_upload` */
  function OpenUpload(f: Files, actor: Actor, u: Id, now: int): (r: Outcome)
    ensures r == Done ==> u in f.uploads && f.uploads[u].status == Uploading
  {
    if u !in f.uploads then Failed(NotFound)
    else if f.uploads[u].user != actor.id then Failed(PermissionDenied)
    else if f.uploads[u].status != Uploading then Failed(Conflict)
    else if f.uploads[u].expiresAt <= now then Failed(Conflict)
    else Done
  }

  function PutChunkVerdict(f: Files, actor: Actor, u: Id, k: int, payload: Bytes, now: int): (r: Outcome)
    ensures r == Done ==> u in f.uploads && f.uploads[u].status == Uploading && k >= 0 && ChunkFits(f.uploads[u].size, k, payload)
  {
    if k < 0 || payload == [] then Failed(Validation)
    else if |payload| > CHUNK_SIZE then Failed(PayloadTooLarge)
    else if OpenUpload(f, actor, u, now).Failed? then OpenUpload(f, actor, u, now)
    else if k * CHUNK_SIZE + |payload| > f.uploads[u].size then Failed(Validation)
    else Done
  }

  lemma PutChunkInv(d: Database, sha: Bytes -> Digest, actor: Actor, u: Id, k: int, payload: Bytes, now: int)
    requires Inv(d, sha) && PutChunkVerdict(d.files, actor, u, k, payload, now) == Done
    ensures Inv(d.(files := PutChunk(d.files, u, k, payload)), sha)
  {
    PutChunkKeeps(d.files, sha, u, k, payload);
  }

  /** `put_chunk` */
  method SendChunk(db: Handle, actor: Actor, u: Id, k: int, payload: Bytes, now: int) returns (r: Outcome)
    modifies db
    ensures r == PutChunkVerdict(old(db.tables.files), actor, u, k, payload, now)
    ensures r == Done ==> db.tables == old(db.tables).(files := PutChunk(old(db.tables.files), u, k, payload))
    ensures r != Done ==> db.tables == old(db.tables)
  {
    if k < 0 || payload == [] {
      return Failed(Validation);
    }
    if |payload| > CHUNK_SIZE {
      return Failed(PayloadTooLarge);
    }
    r := OpenUpload(db.tables.files, actor, u, now);
    if r.Failed? {
      return;
    }
    if k * CHUNK_SIZE + |payload| > db.tables.files.uploads[u].size {
      return Failed(Validation);
    }
    var f := db.tables.files;
    var previous := if (u, k) in f.staged then |f.staged[(u, k)]| else 0;
    f := f.(staged := f.staged[(u, k) := payload]);
    f := f.(uploads := f.uploads[u := f.uploads[u].(received := f.uploads[u].received + |payload| - previous)]);
    db.tables := db.tables.(files := f);
  }

  // ------------------------------------------------------------------ commit

  /** The staged bytes, in chunk order. */
  function Staged(f: Files, u: Id): Bytes
    requires u in f.uploads
  {
    Joined(f.staged, u, ChunkCount(f.uploads[u].size))
  }

  /** `upload_chunk_numbers` is exactly 0..n-1. */
  predicate NumbersComplete(f: Files, u: Id, n: nat) {
    (forall k: nat | k < n :: (u, k) in f.staged) && (forall key | key in f.staged :: key.0 == u ==> key.1 < n)
  }

  /** The checks on the bytes. */
  function BytesVerdict(f: Files, sha: Bytes -> Digest, u: Id): Outcome
    requires u in f.uploads
  {
    var upload := f.uploads[u];
    if !NumbersComplete(f, u, ChunkCount(upload.size)) then Failed(Validation)
    else if |Staged(f, u)| != upload.size then Failed(Validation)
    else if upload.digest.Some? && sha(Staged(f, u)) != upload.digest.value then Failed(Validation)
    else Done
  }

  function TargetOf(f: Files, u: Id, message: Option<Id>): Option<Id>
    requires u in f.uploads
  {
    if message.Some? then message else f.uploads[u].target
  }

  function CommitVerdict(d: Database, sha: Bytes -> Digest, actor: Actor, u: Id, message: Option<Id>, now: int): (r: Outcome)
    ensures r == Done ==> OpenUpload(d.files, actor, u, now) == Done && BytesVerdict(d.files, sha, u) == Done
  {
    var open := OpenUpload(d.files, actor, u, now);
    if open.Failed? then open
    else if BytesVerdict(d.files, sha, u).Failed? then BytesVerdict(d.files, sha, u)
    else
      match TargetOf(d.files, u, message)
      case None => Done
      case Some(target) => MessageGate(d, actor, target)
  }

  predicate Known(f: Files, digest: Digest, size: nat) {
    exists a :: a in f.attachments && ByHash(f, a, digest, size)
  }

  /** `by_hash`, or the attachment just created. */
  ghost function PublishedAs(f: Files, sha: Bytes -> Digest, u: Id, a: Id): Id
    requires u in f.uploads
  {
    var digest, size := sha(Staged(f, u)), f.uploads[u].size;
    if Known(f, digest, size) then var b :| b in f.attachments && ByHash(f, b, digest, size); b else a
  }

  ghost function Publish(f: Files, sha: Bytes -> Digest, u: Id, a: Id): (g: Files)
    requires u in f.uploads
    ensures g.uploads == f.uploads && g.links == f.links && g.staged == f.staged
  {
    var digest, size := sha(Staged(f, u)), f.uploads[u].size;
    if Known(f, digest, size) then f else CreateFromUpload(f, u, a, digest, size, ChunkCount(size))
  }

  ghost function NextOrder(f: Files, message: Id): nat {
    var orders := set key | key in f.links && key.0 == message :: f.links[key];
    if orders == {} then 0 else Highest(orders) + 1
  }

  ghost function CommitEffect(f: Files, sha: Bytes -> Digest, u: Id, target: Option<Id>, a: Id): Files
    requires u in f.uploads
  {
    var b, g := PublishedAs(f, sha, u, a), Publish(f, sha, u, a);
    var h := if target.Some? then Link(g, target.value, b, NextOrder(g, target.value)) else g;
    CloseUpload(h, u, b)
  }


  /** Publishing yields an attachment with exactly the staged bytes. When the hash and the
      length are known already, the attachment found has the same bytes, provided the hash
      does not collide on the two. */
  lemma PublishSound(f: Files, sha: Bytes -> Digest, u: Id, a: Id)
    requires FilesOk(f, sha) && u in f.uploads && BytesVerdict(f, sha, u) == Done && a !in f.attachments
    ensures var g, b := Publish(f, sha, u, a), PublishedAs(f, sha, u, a);
            FilesOk(g, sha) && b in g.attachments && |Content(g, b)| == f.uploads[u].size
            && sha(Content(g, b)) == sha(Staged(f, u))
            && (b !in f.attachments ==> Content(g, b) == Staged(f, u))
            && (NoCollision(sha, Content(g, b), Staged(f, u)) ==> Content(g, b) == Staged(f, u))
  {
    var digest, size := sha(Staged(f, u)), f.uploads[u].size;
    if Known(f, digest, size) {
      assert Published(f, sha, PublishedAs(f, sha, u, a));
    } else {
      assert forall b :: b in f.attachments ==> !ByHash(f, b, digest, size);
      CreateFromUploadKeeps(f, sha, u, a);
    }
  }

  lemma NextOrderFree(f: Files, message: Id)
    ensures OrderFree(f.links, message, NextOrder(f, message))
  {
    var orders := set key | key in f.links && key.0 == message :: f.links[key];
    forall key | key in f.links && key.0 == message ensures f.links[key] <= Highest(orders) && orders != {} {
      assert f.links[key] in orders;
    }
  }

  lemma CommitFilesKeep(m: Messages, f: Files, sha: Bytes -> Digest, u: Id, target: Option<Id>, a: Id)
    requires FileRules(m, f, sha) && u in f.uploads && BytesVerdict(f, sha, u) == Done && a !in f.attachments
    requires target.Some? ==> target.value in m
    ensures FileRules(m, CommitEffect(f, sha, u, target, a), sha)
  {
    PublishSound(f, sha, u, a);
    var b, g := PublishedAs(f, sha, u, a), Publish(f, sha, u, a);
    var h := if target.Some? then Link(g, target.value, b, NextOrder(g, target.value)) else g;
    if target.Some? {
      LinkKeeps(g, sha, target.value, b, NextOrder(g, target.value));
      NextOrderFree(g, target.value);
      LinkDiffers(g, target.value, b, NextOrder(g, target.value));
    }
    CloseUploadKeeps(h, sha, u, b);
    UploadRowLinked(m, h, CloseUpload(h, u, b), u);
  }


  lemma CommitKeeps(d: Database, sha: Bytes -> Digest, actor: Actor, u: Id, message: Option<Id>, a: Id, now: int)
    requires Inv(d, sha) && CommitVerdict(d, sha, actor, u, message, now) == Done
    requires a !in d.files.attachments
    ensures Inv(d.(files := CommitEffect(d.files, sha, u, TargetOf(d.files, u, message), a)), sha)
  {
    CommitFilesKeep(d.messages, d.files, sha, u, TargetOf(d.files, u, message), a);
  }

  method FindNextOrder(links: map<(Id, Id), nat>, message: Id) returns (next: nat)
    ensures forall f: Files :: f.links == links ==> next == NextOrder(f, message)
  {
    next := 0;
    var rest := set key | key in links && key.0 == message;
    ghost var seen: set<nat> := {};
    while rest != {}
      invariant forall key :: key in rest ==> key in links && key.0 == message
      invariant forall key :: key in links && key.0 == message && key !in rest ==> links[key] in seen && links[key] < next
      invariant next == 0 || (next - 1 in seen && exists key :: key in links && key.0 == message && links[key] == next - 1)
      decreases |rest|
    {
      var key :| key in rest;
      rest := rest - {key};
      seen := seen + {links[key]};
      if links[key] + 1 > next {
        next := links[key] + 1;
      }
    }
    ghost var orders := set key | key in links && key.0 == message :: links[key];
    assert forall n :: n in orders ==> n < next;
    assert next > 0 ==> next - 1 in orders;
  }

  lemma OneMatch(f: Files, digest: Digest, size: nat, a: Id, b: Id)
    requires OnePerContent(f) && ByHash(f, a, digest, size) && ByHash(f, b, digest, size)
    ensures a == b
  {
    assert SameContent(f.attachments[a], f.attachments[b]);
  }

  /** The published attachment: the one the hash finds, or a new one. */
  method PublishUpload(f: Files, ghost sha: Bytes -> Digest, digest: Digest, total: nat, u: Id, a: Id) returns (b: Id, g: Files)
    requires OnePerContent(f) && u in f.uploads && digest == sha(Staged(f, u)) && total == f.uploads[u].size
    ensures b == PublishedAs(f, sha, u, a) && g == Publish(f, sha, u, a)
  {
    if Known(f, digest, total) {
      b :| b in f.attachments && ByHash(f, b, digest, total);
      OneMatch(f, digest, total, b, PublishedAs(f, sha, u, a));
      g := f;
    } else {
      b := a;
      g := CreateFromUpload(f, u, a, digest, total, ChunkCount(total));
    }
  }

  /** The checks of `commit` on the staged bytes. */
  method CheckBytes(f: Files, sha: Bytes -> Digest, u: Id) returns (r: Outcome, digest: Digest, total: nat)
    requires u in f.uploads
    ensures r == BytesVerdict(f, sha, u)
    ensures r == Done ==> digest == sha(Staged(f, u)) && total == |Staged(f, u)| == f.uploads[u].size
  {
    var upload := f.uploads[u];
    digest, total := 0, 0;
    if !NumbersComplete(f, u, ChunkCount(upload.size)) {
      return Failed(Validation), digest, total;
    }
    var content;
    content, total := HashChunks(f.staged, u, ChunkCount(upload.size));
    if total != upload.size {
      return Failed(Validation), digest, total;
    }
    digest := sha(content);
    if upload.digest.Some? && digest != upload.digest.value {
      return Failed(Validation), digest, total;
    }
    r := Done;
  }

  /** `commit`: verify the staged bytes, publish them, link them, close the upload. */
  method Commit(db: Handle, sha: Bytes -> Digest, actor: Actor, u: Id, message: Option<Id>, a: Id, now: int)
    returns (r: Outcome, attachment: Id)
    requires OnePerContent(db.tables.files)
    modifies db
    ensures r == CommitVerdict(old(db.tables), sha, actor, u, message, now)
    ensures var d := old(db.tables);
            r == Done ==> attachment == PublishedAs(d.files, sha, u, a)
                          && db.tables == d.(files := CommitEffect(d.files, sha, u, TargetOf(d.files, u, message), a))
    ensures r != Done ==> db.tables == old(db.tables)
  {
    attachment := a;
    r := OpenUpload(db.tables.files, actor, u, now);
    if r.Failed? {
      return;
    }
    var digest, total;
    r, digest, total := CheckBytes(db.tables.files, sha, u);
    if r.Failed? {
      return;
    }
    var begin := db.tables;
    var target := if message.Some? then message else db.tables.files.uploads[u].target;
    var f;
    attachment, f := PublishUpload(begin.files, sha, digest, total, u, a);
    db.tables := db.tables.(files := f);
    if target.Some? {
      r := CheckMessage(db, actor, target.value);
      if r.Failed? {
        db.tables := begin; // ROLLBACK
        return;
      }
      var order := FindNextOrder(f.links, target.value);
      f := Link(f, target.value, attachment, order);
      db.tables := db.tables.(files := f);
    }
    db.tables := db.tables.(files := CloseUpload(f, u, attachment));
  }

  // ------------------------------------------------------------------ detach

  lemma DetachKeeps(d: Database, sha: Bytes -> Digest, message: Id, a: Id)
    requires Inv(d, sha)
    ensures Inv(d.(files := Unlink(d.files, message, a)), sha)
  {
    hide TreeRules, MessageRules, GrantsLinked, MessagesMirrored, AllPublished, StagedOk, ReceivedOk;
    var g := Unlink(d.files, message, a);
    PublishedKept(d.files, g, sha);
    StagingKept(d.files, g);
    FewerDiffer(d.files.links, g.links);
  }

  /** `detach`: the link goes, the bytes stay. */
  method Detach(db: Handle, actor: Actor, message: Id, a: Id) returns (r: Outcome)
    modifies db
    ensures r == MessageGate(old(db.tables), actor, message)
    ensures db.tables == if r == Done then old(db.tables).(files := Unlink(old(db.tables.files), message, a)) else old(db.tables)
  {
    r := CheckMessage(db, actor, message);
    if r == Done {
      db.tables := db.tables.(files := Unlink(db.tables.files, message, a));
    }
  }

  /** An attachment that is still there has the row and the chunks it had. */
  ghost predicate Unaltered(f: Files, g: Files, a: Id) {
    a in f.attachments && a in g.attachments && g.attachments[a] == f.attachments[a]
    && forall n: nat :: ((a, n) in g.chunks <==> (a, n) in f.chunks) && ((a, n) in f.chunks ==> g.chunks[(a, n)] == f.chunks[(a, n)])
  }

  // ------------------------------------------------------------------ blocks

  /** The `k`-th block a client reads from its file. */
  function Block(data: Bytes, k: nat): Bytes
    requires k * CHUNK_SIZE <= |data|
  {
    data[k * CHUNK_SIZE..if (k + 1) * CHUNK_SIZE <= |data| then (k + 1) * CHUNK_SIZE else |data|]
  }

  lemma {:induction false} JoinedBlocks(staged: map<(Id, nat), Bytes>, u: Id, data: Bytes, n: nat)
    requires n <= ChunkCount(|data|)
    requires forall k: nat :: k < n ==> (u, k) in staged && staged[(u, k)] == Block(data, k)
    ensures Joined(staged, u, n) == data[..if n * CHUNK_SIZE <= |data| then n * CHUNK_SIZE else |data|]
    decreases n
  {
    if n > 0 { JoinedBlocks(staged, u, data, n - 1); }
  }

  /** Linking and closing leave the published bytes alone. */
  lemma CommitReadsBack(f: Files, sha: Bytes -> Digest, u: Id, target: Option<Id>, a: Id)
    requires u in f.uploads && PublishedAs(f, sha, u, a) in Publish(f, sha, u, a).attachments
    ensures var b, g, h := PublishedAs(f, sha, u, a), Publish(f, sha, u, a), CommitEffect(f, sha, u, target, a);
            b in h.attachments && h.attachments[b] == g.attachments[b] && Content(h, b) == Content(g, b)
  {}
}
