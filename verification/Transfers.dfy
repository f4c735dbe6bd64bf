/** Uploads and downloads over whole runs, with anything in between: `commit`,
  `upload_whole` and `stream` of `tree_agent/server/services/attachments.py`, and the upload
  loop of `tree_agent/client_api.py`. */
module Transfers {
  import opened Base
  import opened Levels
  import opened Tables
  import opened Access
  import opened Files
  import opened Schema
  import opened Indexing
  import opened ProjectJobs
  import opened ConversationJobs
  import opened MessageJobs
  import opened ForkJob
  import opened AttachmentJobs
  import opened Maintenance
  import opened Purge
  import opened Runs

  // ----------------------------------------------------------- staging rules

  lemma LinksKeepOk(f: Files, g: Files, sha: Bytes -> Digest)
    requires FilesOk(f, sha) && g == f.(links := g.links) && forall x: Id, a: Id :: (x, a) in g.links ==> a in f.attachments
    ensures FilesOk(g, sha)
  {
    NewLinks(f, sha, g.links);
  }

  lemma ForkLinksOk(d: Database, sha: Bytes -> Digest, actor: Actor, op: ConversationOp)
    requires FilesOk(d.files, sha) && op.ForkConversation?
    ensures FilesOk(ConversationStep(d, actor, op).files, sha)
  {
    hide ForkEffect, ForkVerdict, FilesOk;
    if ForkVerdict(d, actor, op.id) == Done && Stored(d.messages, op.order) && |op.ids| == |op.order| + 1 {
      ForkCopiesLinks(d, op.id, op.listing, op.order, op.ids, op.target);
      var links := CopyAllLinks(d.files.links, op.order, op.ids, |op.order|);
      forall x: Id, a: Id | (x, a) in links ensures a in d.files.attachments {
        var y := CopiedLinksRefs(d.files.links, op.order, op.ids, |op.order|, x, a);
        LinksRefer(d.files, sha, y, a);
      }
      LinksKeepOk(d.files, d.files.(links := links), sha);
    }
  }

  lemma LinksRefer(f: Files, sha: Bytes -> Digest, x: Id, a: Id)
    requires FilesOk(f, sha) && (x, a) in f.links
    ensures a in f.attachments
  {}

  lemma ConversationFilesOk(d: Database, sha: Bytes -> Digest, actor: Actor, op: ConversationOp)
    requires FilesOk(d.files, sha)
    ensures FilesOk(ConversationStep(d, actor, op).files, sha)
  {
    hide FilesOk, Place, RekeyedIn, ForkEffect, ForkVerdict, LiveMessagesOf, ReindexedMessages, ReindexedConversations, MarkMessages,
         MarkConversations, StampedMessages, ConversationGate, UniqueConversationName;
    match op
    case ForkConversation(id, listing, order, ids, target) => ForkLinksOk(d, sha, actor, op);
    case _ => assert ConversationStep(d, actor, op).files == d.files;
  }

  lemma MessageFilesOk(d: Database, sha: Bytes -> Digest, actor: Actor, op: MessageOp)
    requires FilesOk(d.files, sha)
    ensures FilesOk(MessageStep(d, actor, op).files, sha)
  {
    hide FilesOk, NextSequenceNo, IndexAfter, GrownAfter, LinkAll;
    match op
    case Append(conversation, role, content, event, attachments, completed, id) =>
      if AppendVerdict(d, actor, conversation, event, attachments) == Done && !Repeated(d.messages, conversation, event) {
        LinkAllKeeps(d.files, sha, id, attachments);
      }
    case _ => assert MessageStep(d, actor, op).files == d.files;
  }

  lemma CommitFilesOk(f: Files, sha: Bytes -> Digest, u: Id, target: Option<Id>, a: Id)
    requires FilesOk(f, sha) && u in f.uploads && BytesVerdict(f, sha, u) == Done && a !in f.attachments
    ensures FilesOk(CommitEffect(f, sha, u, target, a), sha)
  {
    hide FilesOk, BytesVerdict;
    PublishSound(f, sha, u, a);
    var b, g := PublishedAs(f, sha, u, a), Publish(f, sha, u, a);
    var h := if target.Some? then Link(g, target.value, b, NextOrder(g, target.value)) else g;
    if target.Some? { LinkKeeps(g, sha, target.value, b, NextOrder(g, target.value)); }
    CloseUploadKeeps(h, sha, u, b);
  }

  lemma FileFilesOk(d: Database, sha: Bytes -> Digest, actor: Actor, op: FileOp)
    requires FilesOk(d.files, sha) && FilePremise(d, op)
    ensures FilesOk(FileStep(d, sha, actor, op).files, sha)
  {
    hide FilesOk, CommitEffect, CreateUpload, PutChunk, ExpireStale, PurgeFinished, MessageGate;
    match op
    case Initiate(conversation, size, digest, target, id, now) =>
      if InitiateVerdict(d, actor, conversation, size, target) == Done {
        CreateUploadKeeps(d.files, sha, id, actor.id, target, size, digest, now);
      }
    case SendChunk(upload, number, payload, now) =>
      if PutChunkVerdict(d.files, actor, upload, number, payload, now) == Done { PutChunkKeeps(d.files, sha, upload, number, payload); }
    case Commit(upload, message, id, now) =>
      if CommitVerdict(d, sha, actor, upload, message, now) == Done {
        CommitFilesOk(d.files, sha, upload, TargetOf(d.files, upload, message), id);
      }
    case Detach(id, attachment) => LinksRest(d.files, sha, id, attachment);
    case Sweep(now) =>
      ExpireStaleKeeps(d.files, sha, now);
      PurgeFinishedKeeps(ExpireStale(d.files, now), sha, now - 7 * DAY_MS);
  }

  lemma LinksRest(f: Files, sha: Bytes -> Digest, message: Id, a: Id)
    requires FilesOk(f, sha)
    ensures FilesOk(Unlink(f, message, a), sha)
  {
    LinksKeepOk(f, Unlink(f, message, a), sha);
  }

  lemma PurgeFilesOk(d: Database, sha: Bytes -> Digest, cutoff: Stamp)
    requires FilesOk(d.files, sha)
    ensures FilesOk(PurgeEffect(d, cutoff).files, sha)
  {
    hide FilesOk;
    var gone := DueMessages(d.conversations, d.messages, cutoff);
    var order := SomeListing(Candidates(d.files, gone));
    ReleaseMessagesKeeps(d.files, sha, gone);
    var f2 := ForgetTargets(UnlinkMessages(d.files, gone), gone);
    assert f2 == ReleaseMessages(d.files, gone);
    CollectedExactly(f2, sha, order);
    CollectedIs(f2, order);
  }

  /** Every job keeps the rules of the attachment tables, whatever it does to the rest. */
  lemma StepFilesOk(d: Database, sha: Bytes -> Digest, actor: Actor, op: Runs.Op)
    requires FilesOk(d.files, sha) && Premise(d, op)
    ensures FilesOk(Step(d, sha, actor, op).files, sha)
  {
    hide FilesOk, ProjectPremise, ConversationPremise, MessagePremise, FilePremise, ProjectStep, ConversationStep, MessageStep, FileStep, PurgeEffect;
    match op
    case OnProject(o) => ProjectStepFiles(d, actor, o);
    case OnConversation(o) => ConversationFilesOk(d, sha, actor, o);
    case OnMessage(o) => MessageFilesOk(d, sha, actor, o);
    case OnFile(o) => FileFilesOk(d, sha, actor, o);
    case Purge(retention, dryRun, now) => PurgeFilesOk(d, sha, now - retention * DAY_MS);
  }

  lemma {:induction false} RunFilesOk(sha: Bytes -> Digest, states: seq<Database>, calls: seq<Call>, n: nat)
    requires Runs.Run(sha, states, calls) && states[0] == EMPTY && n < |states|
    ensures FilesOk(states[n].files, sha)
    decreases n
  {
    hide FilesOk, Premise, Step;
    if n == 0 {
      NothingStored(sha);
    } else {
      RunFilesOk(sha, states, calls, n - 1);
      StepFilesOk(states[n - 1], sha, calls[n - 1].actor, calls[n - 1].op);
    }
  }

  lemma NothingStored(sha: Bytes -> Digest)
    ensures FilesOk(EMPTY.files, sha)
  {}

  // --------------------------------------------------------- one upload's life

  /** The id a job gives to a new upload. */
  function NewUpload(op: Runs.Op): Option<Id> {
    match op
    case OnFile(Initiate(conversation, size, digest, target, id, now)) => Some(id)
    case _ => None
  }

  /** The id a job has ready for a new attachment. */
  function NewAttachment(op: Runs.Op): Option<Id> {
    match op
    case OnFile(Commit(upload, message, id, now)) => Some(id)
    case _ => None
  }

  /** New ids are never used again, not even after the row they named is gone. */
  ghost predicate NeverReused(calls: seq<Call>) {
    forall i, k :: 0 <= i < k < |calls| ==>
      (NewUpload(calls[i].op).Some? ==> NewUpload(calls[k].op) != NewUpload(calls[i].op))
      && (NewAttachment(calls[i].op).Some? ==> NewAttachment(calls[k].op) != NewAttachment(calls[i].op))
  }

  /** If this job is an accepted chunk of upload `u`, it carries its block of `data`. */
  ghost predicate CarriesBlock(d: Database, call: Call, u: Id, data: Bytes) {
    match call.op
    case OnFile(SendChunk(upload, number, payload, now)) =>
      upload == u && PutChunkVerdict(d.files, call.actor, u, number, payload, now) == Done ==>
        number * CHUNK_SIZE <= |data| && payload == Block(data, number)
    case _ => true
  }

  predicate StillOpen(f: Files, u: Id) { u in f.uploads && f.uploads[u].status == Uploading }

  /** What is staged for `u` is taken from `data`. */
  ghost predicate StagedFrom(f: Files, u: Id, data: Bytes) {
    (u in f.uploads ==> f.uploads[u].size == |data|)
    && forall k: nat :: (u, k) in f.staged ==> k * CHUNK_SIZE <= |data| && f.staged[(u, k)] == Block(data, k)
  }

  /** From one state to the next: the upload keeps what it was opened with, its staged
      chunks come from `data`, none is lost while it stays open, and once closed it stays
      so. */
  ghost predicate UploadStep(f: Files, g: Files, u: Id, data: Bytes) {
    (StagedFrom(f, u, data) ==> StagedFrom(g, u, data))
    && (StillOpen(g, u) ==>
          StillOpen(f, u) && g.uploads[u].digest == f.uploads[u].digest && g.uploads[u].user == f.uploads[u].user
          && g.uploads[u].expiresAt == f.uploads[u].expiresAt && forall k: nat :: (u, k) in f.staged ==> (u, k) in g.staged)
  }

  lemma LinksStep(f: Files, g: Files, u: Id, data: Bytes)
    requires g == f.(links := g.links)
    ensures UploadStep(f, g, u, data)
  {}

  lemma PurgeUploadStep(d: Database, cutoff: Stamp, u: Id, data: Bytes)
    ensures UploadStep(d.files, PurgeEffect(d, cutoff).files, u, data)
  {}

  lemma CommitUploadStep(f: Files, sha: Bytes -> Digest, upload: Id, target: Option<Id>, a: Id, u: Id, data: Bytes)
    requires upload in f.uploads
    ensures UploadStep(f, CommitEffect(f, sha, upload, target, a), u, data)
  {}

  lemma CreateUploadStep(f: Files, id: Id, user: Id, target: Option<Id>, size: Size, digest: Option<Digest>, now: int, u: Id, data: Bytes)
    requires id != u
    ensures UploadStep(f, CreateUpload(f, id, user, target, size, digest, now), u, data)
  {
    hide Block;
  }

  lemma ChunkUploadStep(f: Files, upload: Id, k: nat, payload: Bytes, u: Id, data: Bytes)
    requires upload in f.uploads
    requires upload == u ==> k * CHUNK_SIZE <= |data| && payload == Block(data, k)
    ensures UploadStep(f, PutChunk(f, upload, k, payload), u, data)
  {
    hide Block;
    var g := PutChunk(f, upload, k, payload);
    assert forall n: nat :: (u, n) != (upload, k) && (u, n) in g.staged ==> (u, n) in f.staged && g.staged[(u, n)] == f.staged[(u, n)];
  }

  lemma SweepUploadStep(f: Files, now: int, u: Id, data: Bytes)
    ensures UploadStep(f, Swept(f, now), u, data)
  {
    hide Block;
  }

  lemma SendUploadStep(d: Database, sha: Bytes -> Digest, actor: Actor, upload: Id, k: int, payload: Bytes, now: int, u: Id, data: Bytes)
    requires CarriesBlock(d, Call(actor, OnFile(SendChunk(upload, k, payload, now))), u, data)
    ensures UploadStep(d.files, FileStep(d, sha, actor, SendChunk(upload, k, payload, now)).files, u, data)
  {
    hide UploadStep, PutChunk, Block, PutChunkVerdict;
    LinksStep(d.files, d.files, u, data);
    if PutChunkVerdict(d.files, actor, upload, k, payload, now) == Done { ChunkUploadStep(d.files, upload, k, payload, u, data); }
  }

  lemma InitiateUploadStep(d: Database, sha: Bytes -> Digest, actor: Actor, op: FileOp, u: Id, data: Bytes)
    requires op.Initiate? && op.id != u
    ensures UploadStep(d.files, FileStep(d, sha, actor, op).files, u, data)
  {
    hide UploadStep, CreateUpload, InitiateVerdict;
    LinksStep(d.files, d.files, u, data);
    if InitiateVerdict(d, actor, op.conversation, op.size, op.target) == Done {
      CreateUploadStep(d.files, op.id, actor.id, op.target, op.size, op.digest, op.now, u, data);
    }
  }

  lemma CloseUploadStep(d: Database, sha: Bytes -> Digest, actor: Actor, op: FileOp, u: Id, data: Bytes)
    requires op.Commit?
    ensures UploadStep(d.files, FileStep(d, sha, actor, op).files, u, data)
  {
    hide UploadStep, CommitEffect, CommitVerdict, TargetOf;
    LinksStep(d.files, d.files, u, data);
    if CommitVerdict(d, sha, actor, op.upload, op.message, op.now) == Done {
      CommitUploadStep(d.files, sha, op.upload, TargetOf(d.files, op.upload, op.message), op.id, u, data);
    }
  }

  lemma FileUploadStep(d: Database, sha: Bytes -> Digest, call: Call, u: Id, data: Bytes)
    requires call.op.OnFile? && NewUpload(call.op) != Some(u) && CarriesBlock(d, call, u, data)
    ensures UploadStep(d.files, FileStep(d, sha, call.actor, call.op.file).files, u, data)
  {
    hide UploadStep, CarriesBlock;
    match call.op.file
    case Initiate(conversation, size, digest, target, id, now) => InitiateUploadStep(d, sha, call.actor, call.op.file, u, data);
    case SendChunk(upload, number, payload, now) => SendUploadStep(d, sha, call.actor, upload, number, payload, now, u, data);
    case Commit(upload, message, id, now) => CloseUploadStep(d, sha, call.actor, call.op.file, u, data);
    case Detach(id, attachment) => DetachUploadStep(d, sha, call.actor, call.op.file, u, data);
    case Sweep(now) => SweepUploadStep(d.files, now, u, data);
  }

  lemma DetachUploadStep(d: Database, sha: Bytes -> Digest, actor: Actor, op: FileOp, u: Id, data: Bytes)
    requires op.Detach?
    ensures UploadStep(d.files, FileStep(d, sha, actor, op).files, u, data)
  {
    hide UploadStep, MessageGate;
    LinksStep(d.files, d.files, u, data);
    LinksStep(d.files, Unlink(d.files, op.id, op.attachment), u, data);
  }

  lemma AnyUploadStep(d: Database, sha: Bytes -> Digest, call: Call, u: Id, data: Bytes)
    requires NewUpload(call.op) != Some(u) && CarriesBlock(d, call, u, data)
    ensures UploadStep(d.files, Step(d, sha, call.actor, call.op).files, u, data)
  {
    hide UploadStep, CarriesBlock, ProjectStep, ConversationStep, MessageStep, FileStep, PurgeEffect;
    LinksStep(d.files, d.files, u, data);
    match call.op
    case OnProject(o) => ProjectStepFiles(d, call.actor, o);
    case OnConversation(o) =>
      ConversationStepFiles(d, call.actor, o);
      LinksStep(d.files, ConversationStep(d, call.actor, o).files, u, data);
    case OnMessage(o) =>
      MessageStepFiles(d, call.actor, o);
      LinksStep(d.files, MessageStep(d, call.actor, o).files, u, data);
    case OnFile(o) => FileUploadStep(d, sha, call, u, data);
    case Purge(retention, dryRun, now) => PurgeUploadStep(d, now - retention * DAY_MS, u, data);
  }

  lemma UploadSteps(f: Files, g: Files, h: Files, u: Id, data: Bytes)
    requires UploadStep(f, g, u, data) && UploadStep(g, h, u, data)
    ensures UploadStep(f, h, u, data)
  {}

  /** Between calls `i` and `j` upload `u` is fed from `data`, whatever else happens. */
  ghost predicate FedFrom(states: seq<Database>, calls: seq<Call>, i: nat, j: nat, u: Id, data: Bytes)
    requires j <= |calls| <= |states|
  {
    forall n :: i <= n < j ==> CarriesBlock(states[n], calls[n], u, data)
  }

  lemma {:induction false} RunUpload(sha: Bytes -> Digest, states: seq<Database>, calls: seq<Call>, i: nat, j: nat, u: Id, data: Bytes)
    requires Runs.Run(sha, states, calls) && i <= j < |states| && FedFrom(states, calls, i, j, u, data)
    requires forall n :: i <= n < j ==> NewUpload(calls[n].op) != Some(u)
    ensures UploadStep(states[i].files, states[j].files, u, data)
    decreases j - i
  {
    hide UploadStep, CarriesBlock, Premise, Step;
    if i < j {
      RunUpload(sha, states, calls, i, j - 1, u, data);
      AnyUploadStep(states[j - 1], sha, calls[j - 1], u, data);
      UploadSteps(states[i].files, states[j - 1].files, states[j].files, u, data);
    } else {
      LinksStep(states[i].files, states[i].files, u, data);
    }
  }

  /** Call `i` opens upload `u` for `data`. */
  ghost predicate OpensUpload(states: seq<Database>, calls: seq<Call>, i: nat, u: Id, data: Bytes)
    requires i < |calls| <= |states|
  {
    match calls[i].op
    case OnFile(Initiate(conversation, size, digest, target, id, now)) =>
      id == u && size == |data| && InitiateVerdict(states[i], calls[i].actor, conversation, size, target) == Done
    case _ => false
  }

  lemma OpenedEmpty(sha: Bytes -> Digest, states: seq<Database>, calls: seq<Call>, i: nat, u: Id, data: Bytes)
    requires Runs.Run(sha, states, calls) && states[0] == EMPTY && i < |calls| && OpensUpload(states, calls, i, u, data)
    ensures StagedFrom(states[i + 1].files, u, data)
  {
    hide FilesOk;
    RunFilesOk(sha, states, calls, i);
    NewUploadsAreEmpty(states[i].files, sha, u);
  }

  lemma NewUploadsAreEmpty(f: Files, sha: Bytes -> Digest, u: Id)
    requires FilesOk(f, sha) && u !in f.uploads
    ensures forall k: nat :: (u, k) !in f.staged
  {}

  lemma FedSoFar(sha: Bytes -> Digest, states: seq<Database>, calls: seq<Call>, i: nat, j: nat, u: Id, data: Bytes)
    requires Runs.Run(sha, states, calls) && states[0] == EMPTY && NeverReused(calls)
    requires i < j < |states| && OpensUpload(states, calls, i, u, data) && FedFrom(states, calls, i + 1, j, u, data)
    ensures StagedFrom(states[j].files, u, data)
  {
    hide Premise, Step, StagedFrom, CarriesBlock;
    OpenedEmpty(sha, states, calls, i, u, data);
    assert NewUpload(calls[i].op) == Some(u);
    RunUpload(sha, states, calls, i + 1, j, u, data);
  }

  /** Whatever else runs between them: if upload `u` was opened for `data` and every chunk
      accepted for it carried its block of `data`, in whatever order and however often, a
      commit that succeeds publishes `data` and nothing else, provided the hash, if it was
      known already, does not collide on the two contents. */
  lemma UploadRoundTrip(sha: Bytes -> Digest, states: seq<Database>, calls: seq<Call>, i: nat, j: nat, u: Id, data: Bytes,
                        message: Option<Id>, a: Id, now: int)
    requires Runs.Run(sha, states, calls) && states[0] == EMPTY && NeverReused(calls)
    requires i < j < |calls| && OpensUpload(states, calls, i, u, data) && FedFrom(states, calls, i + 1, j, u, data)
    requires calls[j].op == OnFile(Commit(u, message, a, now))
    requires CommitVerdict(states[j], sha, calls[j].actor, u, message, now) == Done
    ensures var b, f := PublishedAs(states[j].files, sha, u, a), states[j + 1].files;
            b in f.attachments && f.attachments[b].size == |data|
            && (NoCollision(sha, Content(f, b), data) ==> Content(f, b) == data)
            && (b !in states[j].files.attachments ==> Content(f, b) == data)
            && (TargetOf(states[j].files, u, message).Some? ==> (TargetOf(states[j].files, u, message).value, b) in f.links)
  {
    hide Runs.Run, Premise, Step, FilesOk, StagedFrom, CarriesBlock, FedFrom, OpensUpload, BytesVerdict, CommitEffect;
    CommitInRun(sha, states, calls, j, u, message, a, now);
    FedSoFar(sha, states, calls, i, j, u, data);
    RunFilesOk(sha, states, calls, j);
    PublishesData(states[j].files, sha, u, data, TargetOf(states[j].files, u, message), a);
  }

  /** What a successful commit of a run leaves. */
  lemma CommitInRun(sha: Bytes -> Digest, states: seq<Database>, calls: seq<Call>, j: nat, u: Id, message: Option<Id>, a: Id, now: int)
    requires Runs.Run(sha, states, calls) && j < |calls| && calls[j].op == OnFile(Commit(u, message, a, now))
    requires CommitVerdict(states[j], sha, calls[j].actor, u, message, now) == Done
    ensures |states| == |calls| + 1 && a !in states[j].files.attachments
    ensures states[j + 1].files == CommitEffect(states[j].files, sha, u, TargetOf(states[j].files, u, message), a)
  {
    hide CommitVerdict, CommitEffect;
    var call := calls[j];
    assert Premise(states[j], call.op) && states[j + 1] == Step(states[j], sha, call.actor, call.op);
  }

  lemma StagedIsData(f: Files, sha: Bytes -> Digest, u: Id, data: Bytes)
    requires u in f.uploads && StagedFrom(f, u, data) && NumbersComplete(f, u, ChunkCount(|data|))
    ensures Staged(f, u) == data
  {
    JoinedBlocks(f.staged, u, data, ChunkCount(|data|));
  }

  lemma PublishesData(f: Files, sha: Bytes -> Digest, u: Id, data: Bytes, target: Option<Id>, a: Id)
    requires FilesOk(f, sha) && u in f.uploads && StagedFrom(f, u, data) && BytesVerdict(f, sha, u) == Done && a !in f.attachments
    ensures var b, h := PublishedAs(f, sha, u, a), CommitEffect(f, sha, u, target, a);
            b in h.attachments && h.attachments[b].size == |data|
            && (NoCollision(sha, Content(h, b), data) ==> Content(h, b) == data)
            && (b !in f.attachments ==> Content(h, b) == data)
            && (target.Some? ==> (target.value, b) in h.links)
  {
    hide FilesOk;
    assert StagedFrom(f, u, data) ==> f.uploads[u].size == |data|;
    StagedIsData(f, sha, u, data);
    PublishSound(f, sha, u, a);
    CommitReadsBack(f, sha, u, target, a);
    SizeOfContent(Publish(f, sha, u, a), sha, PublishedAs(f, sha, u, a));
  }

  lemma SizeOfContent(f: Files, sha: Bytes -> Digest, a: Id)
    requires FilesOk(f, sha) && a in f.attachments
    ensures f.attachments[a].size == |Content(f, a)|
  {
    assert Published(f, sha, a);
  }

  // ------------------------------------------------------------------ success

  /** This job is an accepted chunk `k` of upload `u`. */
  ghost predicate Accepts(d: Database, call: Call, u: Id, k: nat) {
    match call.op
    case OnFile(SendChunk(upload, number, payload, now)) =>
      upload == u && number == k && PutChunkVerdict(d.files, call.actor, u, number, payload, now) == Done
    case _ => false
  }

  /** Block `k` was accepted between calls `i` and `j`. */
  ghost predicate Accepted(states: seq<Database>, calls: seq<Call>, i: nat, j: nat, u: Id, k: nat)
    requires j <= |calls| <= |states|
  {
    exists n :: i < n < j && Accepts(states[n], calls[n], u, k)
  }

  ghost predicate AllAccepted(states: seq<Database>, calls: seq<Call>, i: nat, j: nat, u: Id, size: nat)
    requires j <= |calls| <= |states|
  {
    forall k: nat :: k < ChunkCount(size) ==> Accepted(states, calls, i, j, u, k)
  }

  lemma AcceptedIsStaged(sha: Bytes -> Digest, states: seq<Database>, calls: seq<Call>, i: nat, n: nat, j: nat, u: Id, data: Bytes, k: nat)
    requires Runs.Run(sha, states, calls) && i < n < j < |states| && FedFrom(states, calls, i + 1, j, u, data)
    requires forall m :: i < m < j ==> NewUpload(calls[m].op) != Some(u)
    requires Accepts(states[n], calls[n], u, k) && StillOpen(states[j].files, u)
    ensures (u, k) in states[j].files.staged
  {
    hide Premise, CarriesBlock, PutChunkVerdict;
    assert states[n + 1] == Step(states[n], sha, calls[n].actor, calls[n].op);
    assert (u, k) in states[n + 1].files.staged;
    hide Step;
    RunUpload(sha, states, calls, n + 1, j, u, data);
  }

  /** What the checks of `commit` on the bytes find once everything was accepted. */
  lemma CompleteBytes(f: Files, sha: Bytes -> Digest, u: Id, data: Bytes)
    requires StagedOk(f) && StillOpen(f, u) && StagedFrom(f, u, data)
    requires forall k: nat :: k < ChunkCount(|data|) ==> (u, k) in f.staged
    requires f.uploads[u].digest.Some? ==> f.uploads[u].digest.value == sha(data)
    ensures BytesVerdict(f, sha, u) == Done
  {
    forall key | key in f.staged && key.0 == u ensures key.1 < ChunkCount(|data|) {
      assert (u, key.1) in f.staged && ChunkFits(f.uploads[u].size, key.1, f.staged[(u, key.1)]);
    }
    StagedIsData(f, sha, u, data);
  }

  /** If every block was accepted, in whatever order and with whatever in between, `commit`
      never fails for the bytes: it fails exactly when the upload is no longer open to the
      caller or the target message no longer to be written to. */
  lemma CommitSucceedsExactly(sha: Bytes -> Digest, states: seq<Database>, calls: seq<Call>, i: nat, j: nat, u: Id, data: Bytes,
                              message: Option<Id>, a: Id, now: int)
    requires Runs.Run(sha, states, calls) && states[0] == EMPTY && NeverReused(calls)
    requires i < j < |calls| && OpensUpload(states, calls, i, u, data) && FedFrom(states, calls, i + 1, j, u, data)
    requires calls[i].op.file.digest.Some? ==> calls[i].op.file.digest.value == sha(data)
    requires AllAccepted(states, calls, i, j, u, |data|) && calls[j].op == OnFile(Commit(u, message, a, now))
    ensures var d, actor := states[j], calls[j].actor;
            var open := OpenUpload(d.files, actor, u, now);
            CommitVerdict(d, sha, actor, u, message, now)
            == if open.Failed? then open
               else match TargetOf(d.files, u, message)
                    case None => Done
                    case Some(target) => MessageGate(d, actor, target)
  {
    hide Premise, StagedFrom, CarriesBlock, BytesVerdict, FilesOk, MessageGate, PutChunkVerdict, InitiateVerdict, Accepts;
    var f := states[j].files;
    if OpenUpload(f, calls[j].actor, u, now) == Done {
      assert states[i + 1] == Step(states[i], sha, calls[i].actor, calls[i].op);
      assert states[i + 1].files.uploads[u].digest == calls[i].op.file.digest;
      assert NewUpload(calls[i].op) == Some(u);
      hide Step;
      FedSoFar(sha, states, calls, i, j, u, data);
      RunUpload(sha, states, calls, i + 1, j, u, data);
      RunFilesOk(sha, states, calls, j);
      OkIsStaged(f, sha);
      forall k: nat | k < ChunkCount(|data|) ensures (u, k) in f.staged {
        assert Accepted(states, calls, i, j, u, k);
        var n :| i < n < j && Accepts(states[n], calls[n], u, k);
        AcceptedIsStaged(sha, states, calls, i, n, j, u, data, k);
      }
      CompleteBytes(f, sha, u, data);
    }
  }

  lemma OkIsStaged(f: Files, sha: Bytes -> Digest)
    requires FilesOk(f, sha)
    ensures StagedOk(f) && OnePerContent(f)
  {}

  // -------------------------------------------------------------- whole files

  /** The `k`-th request of an upload of `data`: initiate, one block after another, commit. */
  function WholeOp(k: nat, sha: Bytes -> Digest, conversation: Id, data: Bytes, message: Option<Id>, u: Id, a: Id, now: int): FileOp
    requires k <= ChunkCount(|data|) + 1
  {
    if k == 0 then Initiate(conversation, |data|, Some(sha(data)), message, u, now)
    else if k <= ChunkCount(|data|) then SendChunk(u, k - 1, Block(data, k - 1), now)
    else Commit(u, message, a, now)
  }

  /** What such a request answers. */
  function FileVerdict(d: Database, sha: Bytes -> Digest, actor: Actor, op: FileOp): Outcome {
    match op
    case Initiate(conversation, size, digest, target, id, now) => InitiateVerdict(d, actor, conversation, size, target)
    case SendChunk(upload, number, payload, now) => PutChunkVerdict(d.files, actor, upload, number, payload, now)
    case Commit(upload, message, id, now) => CommitVerdict(d, sha, actor, upload, message, now)
    case Detach(id, attachment) => MessageGate(d, actor, id)
    case Sweep(now) => Done
  }

  /** The requests made so far: the k-th found `seen[k]`, left `made[k]` and was accepted. */
  ghost predicate Requests(seen: seq<Database>, made: seq<Database>, sha: Bytes -> Digest, actor: Actor, conversation: Id, data: Bytes,
                           message: Option<Id>, u: Id, a: Id, clock: seq<int>)
    requires |made| <= |seen| == |clock| == ChunkCount(|data|) + 2
  {
    forall k: nat :: k < |made| ==>
      var op := WholeOp(k, sha, conversation, data, message, u, a, clock[k]);
      FileVerdict(seen[k], sha, actor, op) == Done && made[k] == FileStep(seen[k], sha, actor, op)
  }

  lemma OneMoreRequest(seen: seq<Database>, made: seq<Database>, d: Database, sha: Bytes -> Digest, actor: Actor, conversation: Id,
                       data: Bytes, message: Option<Id>, u: Id, a: Id, clock: seq<int>)
    requires |made| < |seen| == |clock| == ChunkCount(|data|) + 2
    requires Requests(seen, made, sha, actor, conversation, data, message, u, a, clock)
    requires var k := |made|;
             var op := WholeOp(k, sha, conversation, data, message, u, a, clock[k]);
             FileVerdict(seen[k], sha, actor, op) == Done && d == FileStep(seen[k], sha, actor, op)
    ensures Requests(seen, made + [d], sha, actor, conversation, data, message, u, a, clock)
  {
    hide FileStep, FileVerdict, WholeOp;
  }

  /** The block loop of an upload, server and client; request `k + 1` finds `seen[k + 1]`. */
  method SendBlocks(seen: seq<Database>, begun: seq<Database>, ghost sha: Bytes -> Digest, actor: Actor, ghost conversation: Id, data: Bytes,
                    ghost message: Option<Id>, u: Id, ghost a: Id, clock: seq<int>) returns (r: Outcome, made: seq<Database>)
    requires |begun| == 1 && |seen| == |clock| == ChunkCount(|data|) + 2
    requires Requests(seen, begun, sha, actor, conversation, data, message, u, a, clock)
    ensures |made| <= ChunkCount(|data|) + 1 && Requests(seen, made, sha, actor, conversation, data, message, u, a, clock)
    ensures r == Done ==> |made| == ChunkCount(|data|) + 1
    ensures r != Done ==> 0 < |made| <= ChunkCount(|data|)
                          && r == FileVerdict(seen[|made|], sha, actor,
                                              WholeOp(|made|, sha, conversation, data, message, u, a, clock[|made|]))
  {
    hide Requests, PutChunkVerdict;
    made := begun;
    for k := 0 to ChunkCount(|data|)
      invariant |made| == k + 1 && Requests(seen, made, sha, actor, conversation, data, message, u, a, clock)
    {
      var db := new Handle(seen[k + 1]);
      r := AttachmentJobs.SendChunk(db, actor, u, k, Block(data, k), clock[k + 1]);
      if r.Failed? {
        return;
      }
      OneMoreRequest(seen, made, db.tables, sha, actor, conversation, data, message, u, a, clock);
      made := made + [db.tables];
    }
    r := Done;
  }

  lemma BeginRequest(d: Database, sha: Bytes -> Digest, actor: Actor, conversation: Id, data: Bytes, message: Option<Id>, u: Id, a: Id, now: int)
    ensures var op, r := WholeOp(0, sha, conversation, data, message, u, a, now), InitiateVerdict(d, actor, conversation, |data|, message);
            FileVerdict(d, sha, actor, op) == r
            && (r == Done ==>
                  0 < |data| <= MAX_BYTES
                  && FileStep(d, sha, actor, op) == d.(files := CreateUpload(d.files, u, actor.id, message, |data|, Some(sha(data)), now)))
  {}

  lemma EndRequest(d: Database, sha: Bytes -> Digest, actor: Actor, conversation: Id, data: Bytes, message: Option<Id>, u: Id, a: Id, now: int)
    ensures var op := WholeOp(ChunkCount(|data|) + 1, sha, conversation, data, message, u, a, now);
            var r := CommitVerdict(d, sha, actor, u, message, now);
            FileVerdict(d, sha, actor, op) == r
            && (r == Done ==>
                  u in d.files.uploads
                  && FileStep(d, sha, actor, op) == d.(files := CommitEffect(d.files, sha, u, TargetOf(d.files, u, message), a)))
  {
    hide CommitVerdict, CommitEffect;
  }

  /** `upload_whole`, and `upload_file` of the client: initiate, one block after another,
      commit, each in a transaction of its own; `seen[k]` is what the k-th finds. It stops at
      the first that fails. */
  method UploadWhole(seen: seq<Database>, sha: Bytes -> Digest, actor: Actor, conversation: Id, data: Bytes, message: Option<Id>,
                     u: Id, a: Id, clock: seq<int>) returns (r: Outcome, attachment: Id, made: seq<Database>)
    requires |seen| == |clock| == ChunkCount(|data|) + 2 && OnePerContent(seen[|seen| - 1].files)
    ensures |made| <= |seen| && Requests(seen, made, sha, actor, conversation, data, message, u, a, clock)
    ensures r == Done <==> |made| == |seen|
    ensures r != Done ==> r == FileVerdict(seen[|made|], sha, actor,
                                           WholeOp(|made|, sha, conversation, data, message, u, a, clock[|made|]))
    ensures r == Done ==> u in seen[|seen| - 1].files.uploads && attachment == PublishedAs(seen[|seen| - 1].files, sha, u, a)
  {
    hide Requests, InitiateVerdict, CommitVerdict, CommitEffect, CreateUpload, WholeOp, FileVerdict, FileStep;
    BeginRequest(seen[0], sha, actor, conversation, data, message, u, a, clock[0]);
    EndRequest(seen[|seen| - 1], sha, actor, conversation, data, message, u, a, clock[|clock| - 1]);
    attachment, made := a, [];
    var db := new Handle(seen[0]);
    r := AttachmentJobs.Initiate(db, actor, conversation, |data|, Some(sha(data)), message, u, clock[0]);
    NoRequest(seen, sha, actor, conversation, data, message, u, a, clock);
    if r.Failed? {
      return;
    }
    OneMoreRequest(seen, [], db.tables, sha, actor, conversation, data, message, u, a, clock);
    r, made := SendBlocks(seen, [] + [db.tables], sha, actor, conversation, data, message, u, a, clock);
    if r.Failed? {
      return;
    }
    db := new Handle(seen[|seen| - 1]);
    r, attachment := AttachmentJobs.Commit(db, sha, actor, u, message, a, clock[|clock| - 1]);
    if r.Failed? {
      return;
    }
    OneMoreRequest(seen, made, db.tables, sha, actor, conversation, data, message, u, a, clock);
    made := made + [db.tables];
  }

  lemma NoRequest(seen: seq<Database>, sha: Bytes -> Digest, actor: Actor, conversation: Id, data: Bytes, message: Option<Id>,
                  u: Id, a: Id, clock: seq<int>)
    requires |seen| == |clock| == ChunkCount(|data|) + 2
    ensures Requests(seen, [], sha, actor, conversation, data, message, u, a, clock)
  {}

  /** These calls of a run are the requests of one upload; anything may run between them. */
  ghost predicate RequestsOf(calls: seq<Call>, at: seq<nat>, sha: Bytes -> Digest, actor: Actor, conversation: Id, data: Bytes,
                             message: Option<Id>, u: Id, a: Id, clock: seq<int>) {
    |at| == |clock| == ChunkCount(|data|) + 2 && (forall k, l :: 0 <= k < l < |at| ==> at[k] < at[l]) && at[|at| - 1] < |calls|
    && forall k: nat :: k < |at| ==> calls[at[k]] == Call(actor, OnFile(WholeOp(k, sha, conversation, data, message, u, a, clock[k])))
  }

  /** The upload is open to the caller when request `k` runs. */
  predicate OpenAt(states: seq<Database>, at: seq<nat>, actor: Actor, u: Id, clock: seq<int>, k: nat)
    requires k < |at| == |clock| && at[k] < |states|
  {
    OpenUpload(states[at[k]].files, actor, u, clock[k]) == Done
  }

  predicate DoneAt(states: seq<Database>, calls: seq<Call>, at: seq<nat>, sha: Bytes -> Digest, k: nat)
    requires k < |at| && at[k] < |calls| <= |states| && calls[at[k]].op.OnFile?
  {
    FileVerdict(states[at[k]], sha, calls[at[k]].actor, calls[at[k]].op.file) == Done
  }

  lemma BlockFits(data: Bytes, k: nat)
    requires k < ChunkCount(|data|)
    ensures k * CHUNK_SIZE < |data| && 0 < |Block(data, k)| <= CHUNK_SIZE && k * CHUNK_SIZE + |Block(data, k)| <= |data|
  {}

  /** While the upload is open its own blocks are accepted. */
  lemma BlockAccepted(sha: Bytes -> Digest, states: seq<Database>, calls: seq<Call>, at: seq<nat>, actor: Actor, conversation: Id,
                      data: Bytes, message: Option<Id>, u: Id, a: Id, clock: seq<int>, k: nat)
    requires Runs.Run(sha, states, calls) && states[0] == EMPTY && NeverReused(calls)
    requires RequestsOf(calls, at, sha, actor, conversation, data, message, u, a, clock) && DoneAt(states, calls, at, sha, 0)
    requires FedFrom(states, calls, at[0] + 1, at[|at| - 1], u, data) && 0 < k <= ChunkCount(|data|)
    ensures DoneAt(states, calls, at, sha, k) <==> OpenAt(states, at, actor, u, clock, k)
  {
    hide Premise, Step, CarriesBlock, InitiateVerdict;
    assert OpensUpload(states, calls, at[0], u, data);
    assert FedFrom(states, calls, at[0] + 1, at[k], u, data);
    FedSoFar(sha, states, calls, at[0], at[k], u, data);
    BlockFits(data, k - 1);
    assert calls[at[k]].op == OnFile(SendChunk(u, k - 1, Block(data, k - 1), clock[k]));
  }

  lemma AllBlocksAccepted(sha: Bytes -> Digest, states: seq<Database>, calls: seq<Call>, at: seq<nat>, actor: Actor, conversation: Id,
                          data: Bytes, message: Option<Id>, u: Id, a: Id, clock: seq<int>)
    requires |states| >= |calls| && RequestsOf(calls, at, sha, actor, conversation, data, message, u, a, clock)
    requires forall k: nat :: 0 < k <= ChunkCount(|data|) ==> DoneAt(states, calls, at, sha, k)
    ensures AllAccepted(states, calls, at[0], at[|at| - 1], u, |data|)
  {
    hide PutChunkVerdict;
    var first, last := at[0], at[|at| - 1];
    forall k: nat | k < ChunkCount(|data|) ensures Accepted(states, calls, first, last, u, k) {
      assert DoneAt(states, calls, at, sha, k + 1);
      assert calls[at[k + 1]].op == OnFile(SendChunk(u, k, Block(data, k), clock[k + 1]));
      assert Accepts(states[at[k + 1]], calls[at[k + 1]], u, k);
    }
  }

  /** The upload's target message, if it has one, may be written to. */
  predicate MayLink(d: Database, actor: Actor, u: Id, message: Option<Id>) {
    u in d.files.uploads
    && (TargetOf(d.files, u, message).Some? ==> MessageGate(d, actor, TargetOf(d.files, u, message).value) == Done)
  }

  lemma LastRequest(sha: Bytes -> Digest, states: seq<Database>, calls: seq<Call>, at: seq<nat>, actor: Actor, conversation: Id,
                    data: Bytes, message: Option<Id>, u: Id, a: Id, clock: seq<int>)
    requires Runs.Run(sha, states, calls) && states[0] == EMPTY && NeverReused(calls)
    requires RequestsOf(calls, at, sha, actor, conversation, data, message, u, a, clock)
    requires FedFrom(states, calls, at[0] + 1, at[|at| - 1], u, data)
    requires forall k: nat :: k <= ChunkCount(|data|) ==> DoneAt(states, calls, at, sha, k)
    ensures var last := |at| - 1;
            DoneAt(states, calls, at, sha, last) <==> OpenAt(states, at, actor, u, clock, last) && MayLink(states[at[last]], actor, u, message)
  {
    hide InitiateVerdict, MessageGate, PutChunkVerdict, BytesVerdict, FedFrom, NeverReused, Premise, Step, AllAccepted;
    var last := |at| - 1;
    RequestKinds(calls, at, sha, actor, conversation, data, message, u, a, clock);
    AllBlocksAccepted(sha, states, calls, at, actor, conversation, data, message, u, a, clock);
    assert DoneAt(states, calls, at, sha, 0) && OpensUpload(states, calls, at[0], u, data);
    CommitSucceedsExactly(sha, states, calls, at[0], at[last], u, data, message, a, clock[last]);
  }

  /** An upload of a whole file goes through exactly when it may begin, stays open to the
      caller, and at the end its message, if it has one, may be written to. */
  lemma WholeSucceedsExactly(sha: Bytes -> Digest, states: seq<Database>, calls: seq<Call>, at: seq<nat>, actor: Actor, conversation: Id,
                             data: Bytes, message: Option<Id>, u: Id, a: Id, clock: seq<int>)
    requires Runs.Run(sha, states, calls) && states[0] == EMPTY && NeverReused(calls)
    requires RequestsOf(calls, at, sha, actor, conversation, data, message, u, a, clock)
    requires FedFrom(states, calls, at[0] + 1, at[|at| - 1], u, data)
    ensures (forall k: nat :: k < |at| ==> DoneAt(states, calls, at, sha, k))
            <==> InitiateVerdict(states[at[0]], actor, conversation, |data|, message) == Done
                 && (forall k: nat :: 0 < k < |at| ==> OpenAt(states, at, actor, u, clock, k))
                 && MayLink(states[at[|at| - 1]], actor, u, message)
  {
    hide Runs.Run, InitiateVerdict, FedFrom, RequestsOf, NeverReused, DoneAt, OpenAt, MayLink;
    RunIsLong(sha, states, calls);
    RequestKinds(calls, at, sha, actor, conversation, data, message, u, a, clock);
    var n := ChunkCount(|data|);
    FirstRequest(states, calls, at, sha, actor, conversation, data, message, u, a, clock);
    if DoneAt(states, calls, at, sha, 0) {
      forall k: nat | 0 < k <= n ensures DoneAt(states, calls, at, sha, k) <==> OpenAt(states, at, actor, u, clock, k) {
        BlockAccepted(sha, states, calls, at, actor, conversation, data, message, u, a, clock, k);
      }
      if forall k: nat :: k <= n ==> DoneAt(states, calls, at, sha, k) {
        LastRequest(sha, states, calls, at, actor, conversation, data, message, u, a, clock);
      }
    }
  }

  lemma FirstRequest(states: seq<Database>, calls: seq<Call>, at: seq<nat>, sha: Bytes -> Digest, actor: Actor, conversation: Id, data: Bytes,
                     message: Option<Id>, u: Id, a: Id, clock: seq<int>)
    requires |states| >= |calls| && RequestsOf(calls, at, sha, actor, conversation, data, message, u, a, clock)
    ensures at[0] < |calls| && calls[at[0]].op.OnFile?
    ensures DoneAt(states, calls, at, sha, 0) <==> InitiateVerdict(states[at[0]], actor, conversation, |data|, message) == Done
  {
    hide InitiateVerdict;
    RequestKinds(calls, at, sha, actor, conversation, data, message, u, a, clock);
  }

  lemma RunIsLong(sha: Bytes -> Digest, states: seq<Database>, calls: seq<Call>)
    requires Runs.Run(sha, states, calls)
    ensures |states| == |calls| + 1
  {}

  lemma RequestKinds(calls: seq<Call>, at: seq<nat>, sha: Bytes -> Digest, actor: Actor, conversation: Id, data: Bytes,
                     message: Option<Id>, u: Id, a: Id, clock: seq<int>)
    requires RequestsOf(calls, at, sha, actor, conversation, data, message, u, a, clock)
    ensures |at| == |clock| == ChunkCount(|data|) + 2 && at[0] < at[|at| - 1] && (forall k: nat :: k < |at| ==> at[k] < |calls|)
    ensures forall k: nat :: k < |at| ==> calls[at[k]].op.OnFile? && calls[at[k]].actor == actor
    ensures calls[at[0]].op.file == Initiate(conversation, |data|, Some(sha(data)), message, u, clock[0])
    ensures calls[at[|at| - 1]].op.file == Commit(u, message, a, clock[|at| - 1])
  {
    assert forall k: nat :: k < |at| - 1 ==> at[k] < at[|at| - 1];
  }

  // ---------------------------------------------------------------- download

  datatype Download = Refused | Lost | Got(bytes: Bytes)

  /** The chunks a download reads: chunk `k` from `seen[k + 1]`. */
  ghost predicate AllThere(seen: seq<Database>, a: Id, n: nat)
    requires n < |seen|
  {
    forall k: nat :: k < n ==> (a, k) in seen[k + 1].files.chunks
  }

  /** The chunks it yields, one after another. */
  function ReadBytes(seen: seq<Database>, a: Id, n: nat): Bytes
    requires n < |seen|
  {
    if n == 0 then []
    else ReadBytes(seen, a, n - 1) + if (a, n - 1) in seen[n].files.chunks then seen[n].files.chunks[(a, n - 1)] else []
  }

  /** `stream`: the metadata and the access check in one read transaction, then one query
      per chunk, each in a transaction of its own: `seen[k]` is what the k-th finds. */
  method Stream(seen: seq<Database>, actor: Actor, a: Id) returns (r: Download)
    requires |seen| > 0 && (a in seen[0].files.attachments ==> |seen| == seen[0].files.attachments[a].chunkCount + 1)
    ensures r == Refused <==> !Readable(seen[0], actor, a)
    ensures Readable(seen[0], actor, a) ==>
              (r.Got? <==> AllThere(seen, a, |seen| - 1)) && (r.Got? ==> r.bytes == ReadBytes(seen, a, |seen| - 1))
  {
    hide MessageJobs.Opens;
    if !Readable(seen[0], actor, a) {
      return Refused;
    }
    hide Readable;
    var bytes: Bytes := [];
    for k := 0 to seen[0].files.attachments[a].chunkCount
      invariant AllThere(seen, a, k) && bytes == ReadBytes(seen, a, k)
    {
      if (a, k) !in seen[k + 1].files.chunks {
        return Lost;
      }
      bytes := bytes + seen[k + 1].files.chunks[(a, k)];
    }
    r := Got(bytes);
  }

  lemma ProjectStepAttachments(d: Database, sha: Bytes -> Digest, call: Call)
    requires !call.op.OnFile?
    ensures Step(d, sha, call.actor, call.op).files.attachments.Keys <= d.files.attachments.Keys
  {
    hide ProjectStep, ConversationStep, MessageStep, DueMessages, DueConversations, DueProjects;
    match call.op
    case OnProject(o) => ProjectStepFiles(d, call.actor, o);
    case OnConversation(o) => ConversationStepFiles(d, call.actor, o);
    case OnMessage(o) => MessageStepFiles(d, call.actor, o);
    case Purge(retention, dryRun, now) =>
  }

  lemma CommitAttachments(f: Files, sha: Bytes -> Digest, u: Id, target: Option<Id>, a: Id)
    requires u in f.uploads
    ensures CommitEffect(f, sha, u, target, a).attachments.Keys <= f.attachments.Keys + {a}
  {}

  lemma FileStepAttachments(d: Database, sha: Bytes -> Digest, actor: Actor, op: FileOp, b: Id)
    requires b in FileStep(d, sha, actor, op).files.attachments && b !in d.files.attachments
    ensures NewAttachment(OnFile(op)) == Some(b)
  {
    hide CommitEffect, CommitVerdict, InitiateVerdict, PutChunkVerdict, MessageGate;
    match op
    case Commit(upload, message, id, now) =>
      if CommitVerdict(d, sha, actor, upload, message, now) == Done {
        CommitAttachments(d.files, sha, upload, TargetOf(d.files, upload, message), id);
      }
    case _ =>
  }

  /** An attachment appears only under the new id of its commit. */
  lemma StepAttachments(d: Database, sha: Bytes -> Digest, call: Call, b: Id)
    requires b in Step(d, sha, call.actor, call.op).files.attachments && b !in d.files.attachments
    ensures NewAttachment(call.op) == Some(b)
  {
    hide FileStep, ProjectStep, ConversationStep, MessageStep, PurgeEffect;
    if call.op.OnFile? { FileStepAttachments(d, sha, call.actor, call.op.file, b); } else { ProjectStepAttachments(d, sha, call); }
  }

  lemma {:induction false} AttachmentOrigin(sha: Bytes -> Digest, states: seq<Database>, calls: seq<Call>, n: nat, b: Id) returns (i: nat)
    requires Runs.Run(sha, states, calls) && states[0] == EMPTY && n < |states| && b in states[n].files.attachments
    ensures i < n && NewAttachment(calls[i].op) == Some(b)
    decreases n
  {
    hide Premise, Step;
    if b in states[n - 1].files.attachments {
      i := AttachmentOrigin(sha, states, calls, n - 1, b);
    } else {
      i := n - 1;
      StepAttachments(states[i], sha, calls[i], b);
    }
  }

  /** An attachment that is there at some moment and at a later one was there all the time
      in between: ids are never reused. */
  lemma {:induction false} ThereBetween(sha: Bytes -> Digest, states: seq<Database>, calls: seq<Call>, i: nat, m: nat, n: nat, b: Id)
    requires Runs.Run(sha, states, calls) && states[0] == EMPTY && NeverReused(calls) && i <= m <= n < |states|
    requires b in states[i].files.attachments && b in states[n].files.attachments
    ensures b in states[m].files.attachments
    decreases n - m
  {
    hide Premise, Step;
    if m < n {
      ThereBetween(sha, states, calls, i, m + 1, n, b);
      if b !in states[m].files.attachments {
        var o := AttachmentOrigin(sha, states, calls, i, b);
        StepAttachments(states[m], sha, calls[m], b);
      }
    }
  }

  /** An attachment that went was taken by a purge. */
  lemma {:induction false} TakenByPurge(sha: Bytes -> Digest, states: seq<Database>, calls: seq<Call>, i: nat, n: nat, b: Id) returns (m: nat)
    requires Runs.Run(sha, states, calls) && i <= n < |states|
    requires b in states[i].files.attachments && b !in states[n].files.attachments
    ensures i <= m < n && calls[m].op.Purge? && b in states[m].files.attachments && b !in states[m + 1].files.attachments
    decreases n
  {
    hide Premise, Step;
    if b in states[n - 1].files.attachments {
      m := n - 1;
      StepKeepsBytes(states[m], sha, calls[m].actor, calls[m].op, b);
    } else {
      m := TakenByPurge(sha, states, calls, i, n - 1, b);
    }
  }

  /** The read transactions of one download, in a run. */
  ghost predicate ReadsOf(states: seq<Database>, at: seq<nat>, seen: seq<Database>) {
    |at| == |seen| > 0 && (forall k, l :: 0 <= k <= l < |at| ==> at[k] <= at[l])
    && forall k :: 0 <= k < |at| ==> at[k] < |states| && seen[k] == states[at[k]]
  }

  lemma {:induction false} ReadsSame(seen: seq<Database>, a: Id, n: nat, f: Files)
    requires n < |seen| && forall k: nat :: k < n ==> (a, k) in f.chunks && (a, k) in seen[k + 1].files.chunks
    requires forall k: nat :: k < n ==> seen[k + 1].files.chunks[(a, k)] == f.chunks[(a, k)]
    ensures ReadBytes(seen, a, n) == Joined(f.chunks, a, n)
    decreases n
  {
    if n > 0 { ReadsSame(seen, a, n - 1, f); }
  }

  lemma ChunksOf(f: Files, sha: Bytes -> Digest, a: Id)
    requires FilesOk(f, sha)
    ensures a !in f.attachments ==> forall k: nat :: (a, k) !in f.chunks
    ensures a in f.attachments ==> f.attachments[a].chunkCount > 0 && forall k: nat :: (a, k) in f.chunks <==> k < f.attachments[a].chunkCount
  {
    if a in f.attachments { assert Published(f, sha, a); }
  }

  /** What chunk `k` of a download finds: the chunk there was at the start, or nothing if the
      attachment is gone. */
  lemma ChunkRead(sha: Bytes -> Digest, states: seq<Database>, calls: seq<Call>, i: nat, n: nat, a: Id, k: nat)
    requires Runs.Run(sha, states, calls) && states[0] == EMPTY && NeverReused(calls) && i <= n < |states|
    requires a in states[i].files.attachments && k < states[i].files.attachments[a].chunkCount
    ensures (a, k) in states[i].files.chunks && ((a, k) in states[n].files.chunks <==> a in states[n].files.attachments)
    ensures (a, k) in states[n].files.chunks ==> states[n].files.chunks[(a, k)] == states[i].files.chunks[(a, k)]
  {
    hide Premise, Step, FilesOk;
    RunFilesOk(sha, states, calls, i);
    RunFilesOk(sha, states, calls, n);
    ChunksOf(states[i].files, sha, a);
    ChunksOf(states[n].files, sha, a);
    if a in states[n].files.attachments {
      forall m | i <= m <= n ensures a in states[m].files.attachments { ThereBetween(sha, states, calls, i, m, n, a); }
      RunKeepsBytes(sha, states, calls, i, n, a);
    }
  }

  /** A download in a run, with anything between its reads, finds every chunk exactly when the
      attachment is still there at the last one, and then yields its bytes. */
  lemma DownloadExact(sha: Bytes -> Digest, states: seq<Database>, calls: seq<Call>, at: seq<nat>, seen: seq<Database>, a: Id)
    requires Runs.Run(sha, states, calls) && states[0] == EMPTY && NeverReused(calls) && ReadsOf(states, at, seen)
    requires a in seen[0].files.attachments && |seen| == seen[0].files.attachments[a].chunkCount + 1
    ensures AllThere(seen, a, |seen| - 1) <==> a in seen[|seen| - 1].files.attachments
    ensures AllThere(seen, a, |seen| - 1) ==> ReadBytes(seen, a, |seen| - 1) == Content(seen[0].files, a)
  {
    hide Runs.Run, FilesOk, Step, Premise;
    var n := |seen| - 1;
    RunFilesOk(sha, states, calls, at[0]);
    ChunksOf(seen[0].files, sha, a);
    forall k: nat | k < n
      ensures (a, k) in seen[0].files.chunks && ((a, k) in seen[k + 1].files.chunks <==> a in seen[k + 1].files.attachments)
      ensures (a, k) in seen[k + 1].files.chunks ==> seen[k + 1].files.chunks[(a, k)] == seen[0].files.chunks[(a, k)]
      ensures a in seen[n].files.attachments ==> a in seen[k + 1].files.attachments
    {
      ChunkRead(sha, states, calls, at[0], at[k + 1], a, k);
      if a in seen[n].files.attachments { ThereBetween(sha, states, calls, at[0], at[k + 1], at[n], a); }
    }
    if AllThere(seen, a, n) {
      assert (a, n - 1) in seen[n].files.chunks;
      ReadsSame(seen, a, n, seen[0].files);
    }
  }

  /** Uploading any data and downloading it, each over as much of a run as it takes, gives
      the same data, or loses the attachment to a purge: call `j` committed upload `u` of
      `data` as `b`, and the reads of the download begin after it. */
  lemma TransferRoundTrip(sha: Bytes -> Digest, states: seq<Database>, calls: seq<Call>, i: nat, j: nat, u: Id, data: Bytes,
                          message: Option<Id>, a: Id, now: int, at: seq<nat>, seen: seq<Database>)
    returns (b: Id, taken: Option<nat>)
    requires Runs.Run(sha, states, calls) && states[0] == EMPTY && NeverReused(calls)
    requires i < j < |calls| && OpensUpload(states, calls, i, u, data) && FedFrom(states, calls, i + 1, j, u, data)
    requires calls[j].op == OnFile(Commit(u, message, a, now))
    requires CommitVerdict(states[j], sha, calls[j].actor, u, message, now) == Done
    requires var b := PublishedAs(states[j].files, sha, u, a);
             b in states[j + 1].files.attachments ==> NoCollision(sha, Content(states[j + 1].files, b), data)
    requires ReadsOf(states, at, seen) && j < at[0]
    requires var b := PublishedAs(states[j].files, sha, u, a);
             b in seen[0].files.attachments ==> |seen| == seen[0].files.attachments[b].chunkCount + 1
    ensures b == PublishedAs(states[j].files, sha, u, a)
    ensures taken == None ==> b in seen[0].files.attachments && AllThere(seen, b, |seen| - 1) && ReadBytes(seen, b, |seen| - 1) == data
    ensures taken.Some? ==> j < taken.value < at[|at| - 1] && calls[taken.value].op.Purge?
                            && b in states[taken.value].files.attachments && b !in states[taken.value + 1].files.attachments
                            && (b in seen[0].files.attachments ==> !AllThere(seen, b, |seen| - 1))
  {
    hide Premise, Step, FilesOk, FedFrom, OpensUpload, CommitVerdict;
    b, taken := PublishedAs(states[j].files, sha, u, a), None;
    UploadRoundTrip(sha, states, calls, i, j, u, data, message, a, now);
    var last := at[|at| - 1];
    if b in states[last].files.attachments {
      ThereBetween(sha, states, calls, j + 1, at[0], last, b);
      forall m | j + 1 <= m <= at[0] ensures b in states[m].files.attachments { ThereBetween(sha, states, calls, j + 1, m, last, b); }
      RunKeepsBytes(sha, states, calls, j + 1, at[0], b);
      SameContents(states[j + 1].files, seen[0].files, b);
      DownloadExact(sha, states, calls, at, seen, b);
    } else {
      var m := TakenByPurge(sha, states, calls, j + 1, last, b);
      taken := Some(m);
      if b in seen[0].files.attachments { DownloadExact(sha, states, calls, at, seen, b); }
    }
  }

  lemma SameContents(f: Files, g: Files, a: Id)
    requires Unaltered(f, g, a)
    ensures Content(g, a) == Content(f, a)
  {
    JoinedDependsOn(f.chunks, g.chunks, a, a, f.attachments[a].chunkCount);
  }
}
