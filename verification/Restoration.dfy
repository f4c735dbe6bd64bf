/** A deletion and the restoration that undoes it, with anything in between. */
module Restoration {
  import opened Base
  import opened Levels
  import opened Naming
  import opened Tables
  import opened Files
  import opened Search
  import opened Schema
  import opened Indexing
  import opened ProjectJobs
  import opened ConversationJobs
  import opened MessageJobs
  import opened ForkJob
  import opened AttachmentJobs
  import opened Maintenance
  import opened Runs

  // ------------------------------------------------------------------ slices

  /** The rows with one deletion stamp. */
  function ProjectsAt(p: Projects, s: Stamp): Projects { map id | id in p && p[id].deletedAt == Some(s) :: p[id] }

  function ConversationsAt(c: Conversations, s: Stamp): Conversations { map id | id in c && c[id].deletedAt == Some(s) :: c[id] }

  function MessagesAt(m: Messages, s: Stamp): Messages { map id | id in m && m[id].deletedAt == Some(s) :: m[id] }

  /** Between two states no row with the stamp changed, appeared or went. */
  ghost predicate Frozen(d: Database, e: Database, s: Stamp) {
    ProjectsAt(e.projects, s) == ProjectsAt(d.projects, s)
    && ConversationsAt(e.conversations, s) == ConversationsAt(d.conversations, s)
    && MessagesAt(e.messages, s) == MessagesAt(d.messages, s)
  }

  lemma PutProjectAt(p: Projects, id: Id, row: Project, s: Stamp)
    requires row.deletedAt != Some(s) && (id in p ==> p[id].deletedAt != Some(s))
    ensures ProjectsAt(p[id := row], s) == ProjectsAt(p, s)
  {}

  lemma PutConversationAt(c: Conversations, id: Id, row: Conversation, s: Stamp)
    requires row.deletedAt != Some(s) && (id in c ==> c[id].deletedAt != Some(s))
    ensures ConversationsAt(c[id := row], s) == ConversationsAt(c, s)
  {}

  lemma PutMessageAt(m: Messages, id: Id, row: Message, s: Stamp)
    requires row.deletedAt != Some(s) && (id in m ==> m[id].deletedAt != Some(s))
    ensures MessagesAt(m[id := row], s) == MessagesAt(m, s)
  {}


  lemma MarkProjectsAt(p: Projects, ids: set<Id>, stamp: Option<Stamp>, author: Option<Id>, s: Stamp)
    requires stamp != Some(s) && forall x :: x in ids && x in p ==> p[x].deletedAt != Some(s)
    ensures ProjectsAt(MarkProjects(p, ids, stamp, author), s) == ProjectsAt(p, s)
  {}

  lemma MarkConversationsAt(c: Conversations, ids: set<Id>, stamp: Option<Stamp>, author: Option<Id>, s: Stamp)
    requires stamp != Some(s) && forall x :: x in ids && x in c ==> c[x].deletedAt != Some(s)
    ensures ConversationsAt(MarkConversations(c, ids, stamp, author), s) == ConversationsAt(c, s)
  {}

  lemma MarkMessagesAt(m: Messages, ids: set<Id>, stamp: Option<Stamp>, s: Stamp)
    requires stamp != Some(s) && forall x :: x in ids && x in m ==> m[x].deletedAt != Some(s)
    ensures MessagesAt(MarkMessages(m, ids, stamp), s) == MessagesAt(m, s)
  {}

  lemma {:induction false} RekeyedAt(p: Projects, updates: seq<Entry>, s: Stamp)
    requires forall i :: 0 <= i < |updates| ==> LiveProject(p, updates[i].id)
    ensures ProjectsAt(Rekeyed(p, updates), s) == ProjectsAt(p, s)
    decreases |updates|
  {
    if updates != [] {
      var n := |updates| - 1;
      RekeyedAt(p, updates[..n], s);
      RekeyedOnlyKeys(p, updates[..n]);
      var q := Rekeyed(p, updates[..n]);
      PutProjectAt(q, updates[n].id, q[updates[n].id].(sortKey := updates[n].key), s);
    }
  }

  lemma {:induction false} RekeyedInAt(c: Conversations, updates: seq<Entry>, s: Stamp)
    requires forall i :: 0 <= i < |updates| ==> LiveConversation(c, updates[i].id)
    ensures ConversationsAt(RekeyedIn(c, updates), s) == ConversationsAt(c, s)
    decreases |updates|
  {
    if updates != [] {
      var n := |updates| - 1;
      RekeyedInAt(c, updates[..n], s);
      RekeyedInOnlyKeys(c, updates[..n]);
      var e := RekeyedIn(c, updates[..n]);
      PutConversationAt(e, updates[n].id, e[updates[n].id].(sortKey := updates[n].key), s);
    }
  }

  /** A walk stays on the rows it may step onto. */
  lemma SubtreeKept(p: Projects, keep: set<Id>, root: Id, x: Id)
    requires root in keep && x in Subtree(p, keep, root)
    ensures x in keep
  {
    if x != root { SubtreeParent(p, keep, root, x); }
  }

  // ------------------------------------------------------------------- steps

  lemma DeleteFreezes(d: Database, actor: Actor, id: Id, now: Stamp, s: Stamp)
    requires LiveProject(d.projects, id) && now != s
    ensures Frozen(d, DeleteProjectEffect(d, id, now, actor.id), s)
  {
    var batch := DeletionBatch(d, id);
    forall x | x in batch.projects ensures x in LiveProjects(d.projects) {
      SubtreeKept(d.projects, LiveProjects(d.projects), id, x);
    }
    MarkProjectsAt(d.projects, batch.projects, Some(now), Some(actor.id), s);
    MarkConversationsAt(d.conversations, batch.conversations, Some(now), Some(actor.id), s);
    MarkMessagesAt(d.messages, batch.messages, Some(now), s);
  }

  lemma RestoreFreezes(d: Database, id: Id, s: Stamp)
    requires id in d.projects && d.projects[id].deletedAt != Some(s)
    ensures Frozen(d, RestoreProjectEffect(d, id), s)
  {
    var batch, stamp := RestorationBatch(d, id), d.projects[id].deletedAt;
    forall x | x in batch.projects ensures x in Stamped(d.projects, stamp) {
      SubtreeKept(d.projects, Stamped(d.projects, stamp), id, x);
    }
    MarkProjectsAt(d.projects, batch.projects, None, None, s);
    MarkConversationsAt(d.conversations, batch.conversations, None, None, s);
    MarkMessagesAt(d.messages, batch.messages, None, s);
  }

  lemma CreateFreezes(d: Database, actor: Actor, parent: Option<Id>, name: string, index: Option<int>, prompt: string, id: Id,
                      listing: seq<Entry>, s: Stamp)
    requires id !in d.projects && Lists(ProjectLevel(d.projects, parent), listing)
    ensures Frozen(d, CreateProjectEffect(d, actor, parent, name, index, prompt, id, listing), s)
  {
    hide Lists, Place, ProjectsAt, ConversationsAt, MessagesAt, Segment, Fold;
    UpdatesInLevel(ProjectLevel(d.projects, parent), listing, id, index);
    var placement := Place(listing, index);
    RekeyedOnlyKeys(d.projects, placement.updates);
    RekeyedAt(d.projects, placement.updates, s);
    PutProjectAt(Rekeyed(d.projects, placement.updates), id, Project(parent, name, placement.key, prompt, 1, None, None), s);
  }

  lemma MoveFreezes(d: Database, id: Id, parent: Option<Id>, index: Option<int>, listing: seq<Entry>, s: Stamp)
    requires LiveProject(d.projects, id) && Lists(ProjectLevel(d.projects, parent), listing)
    ensures Frozen(d, MoveProjectEffect(d, id, parent, index, listing), s)
  {
    hide Lists, Place, ProjectsAt, ConversationsAt, MessagesAt, Segment, Fold;
    UpdatesInLevel(ProjectLevel(d.projects, parent), listing, id, index);
    var placement := Place(Except(listing, id), index);
    RekeyedOnlyKeys(d.projects, placement.updates);
    RekeyedAt(d.projects, placement.updates, s);
    var p := Rekeyed(d.projects, placement.updates);
    PutProjectAt(p, id, p[id].(parent := parent, sortKey := placement.key, revision := p[id].revision + 1), s);
  }

  lemma ProjectStepFreezes(d: Database, actor: Actor, op: ProjectOp, s: Stamp)
    requires ProjectPremise(d, op) && (op.DeleteProject? ==> op.now != s)
    requires op.RestoreProject? && RestoreProjectVerdict(d, actor, op.id) == Done ==> d.projects[op.id].deletedAt != Some(s)
    ensures Frozen(d, ProjectStep(d, actor, op), s)
  {
    hide ClockPast, Lists, CreateProjectEffect, MoveProjectEffect, DeleteProjectEffect, RestoreProjectEffect;
    match op
    case CreateProject(parent, name, index, prompt, id, listing) =>
      if CreateProjectVerdict(d, actor, parent, name) == Done {
        CreateFreezes(d, actor, parent, Clean(name).value, index, prompt, id, listing, s);
      }
    case UpdateProject(id, expected, rename, text) =>
      if UpdateProjectVerdict(d, actor, id, expected, rename) == Done {
        UpdateProjectChecks(d, actor, id, expected, rename);
        PutProjectAt(d.projects, id, UpdateProjectEffect(d, id, rename, text).projects[id], s);
      }
    case MoveProject(id, expected, parent, index, listing) =>
      if MoveProjectVerdict(d, actor, id, expected, parent) == Done { MoveFreezes(d, id, parent, index, listing, s); }
    case DeleteProject(id, revision, now) =>
      if DeleteProjectVerdict(d, actor, id, revision) == Done {
        DeleteFreezes(d, actor, id, now, s);
      }
    case RestoreProject(id) =>
      if RestoreProjectVerdict(d, actor, id) == Done { RestoreFreezes(d, id, s); }
    case Grant(id, user, permission, known) =>
    case Revoke(id, user) =>
  }

  lemma CreateConversationFreezes(d: Database, project: Id, name: string, index: Option<int>, id: Id, listing: seq<Entry>, s: Stamp)
    requires id !in d.conversations && Lists(ConversationLevel(d.conversations, project), listing) && WantedName(name).Some?
    ensures Frozen(d, CreateConversationEffect(d, project, name, index, id, listing), s)
  {
    hide Lists, Place, UniqueConversationName;
    UpdatesInLevel(ConversationLevel(d.conversations, project), listing, id, index);
    var placement := Place(listing, index);
    RekeyedInOnlyKeys(d.conversations, placement.updates);
    RekeyedInAt(d.conversations, placement.updates, s);
    var e := CreateConversationEffect(d, project, name, index, id, listing);
    PutConversationAt(RekeyedIn(d.conversations, placement.updates), id, e.conversations[id], s);
  }

  lemma MoveConversationFreezes(d: Database, id: Id, project: Id, index: Option<int>, listing: seq<Entry>, s: Stamp)
    requires LiveConversation(d.conversations, id) && Lists(ConversationLevel(d.conversations, project), listing)
    ensures Frozen(d, MoveConversationEffect(d, id, project, index, listing), s)
  {
    hide Lists, Place, ProjectsAt, ConversationsAt, MessagesAt, Segment, Fold;
    UpdatesInLevel(ConversationLevel(d.conversations, project), listing, id, index);
    var placement := Place(Except(listing, id), index);
    RekeyedInOnlyKeys(d.conversations, placement.updates);
    RekeyedInAt(d.conversations, placement.updates, s);
    var c := RekeyedIn(d.conversations, placement.updates);
    PutConversationAt(c, id, c[id].(project := project, sortKey := placement.key, revision := c[id].revision + 1), s);
  }

  lemma GraftAt(m: Messages, n: Messages, target: Id, s: Stamp)
    requires Grafted(m, n, target)
    ensures MessagesAt(n, s) == MessagesAt(m, s)
  {}

  lemma ForkFreezes(d: Database, source: Id, listing: seq<Entry>, order: seq<Id>, ids: seq<Id>, target: Id, s: Stamp)
    requires LiveConversation(d.conversations, source) && target !in d.conversations
    requires Lists(ConversationLevel(d.conversations, d.conversations[source].project), listing)
    requires Stored(d.messages, order) && NewIds(d.messages, ids) && |ids| == |order| + 1
    ensures Frozen(d, ForkEffect(d, source, listing, order, ids, target), s)
  {
    hide Lists, Place, ForkSlot, Grafted, ForkedMessages, CopyAllLinks, NewIds, Stored;
    var slot := Some(ForkSlot(d.conversations, listing, source, d.conversations[source].thread));
    UpdatesInLevel(ConversationLevel(d.conversations, d.conversations[source].project), listing, target, slot);
    var placement := ForkPlacement(d.conversations, source, listing);
    RekeyedInOnlyKeys(d.conversations, placement.updates);
    RekeyedInAt(d.conversations, placement.updates, s);
    PutConversationAt(RekeyedIn(d.conversations, placement.updates), target, ForkRow(d.conversations, source, placement.key), s);
    CopyGrafts(d.messages, order, ids, target, d.conversations[source].name);
    GraftAt(d.messages, ForkedMessages(d.messages, order, ids, target, d.conversations[source].name), target, s);
  }

  lemma DeleteConversationFreezes(d: Database, id: Id, now: Stamp, author: Id, s: Stamp)
    requires LiveConversation(d.conversations, id) && now != s
    ensures Frozen(d, DeleteConversationEffect(d, id, now, author), s)
  {
    MarkConversationsAt(d.conversations, {id}, Some(now), Some(author), s);
    MarkMessagesAt(d.messages, LiveMessagesOf(d.messages, {id}), Some(now), s);
  }

  lemma RestoreConversationFreezes(d: Database, id: Id, s: Stamp)
    requires id in d.conversations && d.conversations[id].deletedAt != Some(s)
    ensures Frozen(d, RestoreConversationEffect(d, id), s)
  {
    MarkConversationsAt(d.conversations, {id}, None, None, s);
    MarkMessagesAt(d.messages, StampedMessages(d.messages, {id}, d.conversations[id].deletedAt), None, s);
  }

  lemma ResetFreezes(d: Database, id: Id, now: Stamp, s: Stamp)
    requires LiveConversation(d.conversations, id) && now != s
    ensures Frozen(d, ResetEffect(d, id, now), s)
  {
    PutConversationAt(d.conversations, id, ResetEffect(d, id, now).conversations[id], s);
    MarkMessagesAt(d.messages, LiveMessagesOf(d.messages, {id}), Some(now), s);
  }

  lemma ConversationStepFreezes(d: Database, actor: Actor, op: ConversationOp, s: Stamp)
    requires ConversationPremise(d, op)
    requires (op.DeleteConversation? ==> op.now != s) && (op.ResetConversation? ==> op.now != s)
    requires op.RestoreConversation? && RestoreConversationVerdict(d, actor, op.id) == Done ==> d.conversations[op.id].deletedAt != Some(s)
    ensures Frozen(d, ConversationStep(d, actor, op), s)
  {
    hide ClockPast, Lists, Transcript, NewIds, CreateConversationEffect, MoveConversationEffect, ForkEffect, DeleteConversationEffect,
         RestoreConversationEffect, ResetEffect;
    match op
    case CreateConversation(project, name, index, id, listing) =>
      if CreateConversationVerdict(d, actor, project, name) == Done { CreateConversationFreezes(d, project, name, index, id, listing, s); }
    case UpdateConversation(id, expected, rename) =>
      if UpdateConversationVerdict(d, actor, id, expected, rename) == Done {
        PutConversationAt(d.conversations, id, UpdateConversationEffect(d, id, rename).conversations[id], s);
      }
    case SetRunner(id, thread, session) =>
      if SetRunnerVerdict(d, actor, id, thread, session) == Done {
        PutConversationAt(d.conversations, id, SetRunnerEffect(d, id, thread, session).conversations[id], s);
      }
    case MoveConversation(id, expected, project, index, listing) =>
      if MoveConversationVerdict(d, actor, id, expected, project) == Done { MoveConversationFreezes(d, id, project, index, listing, s); }
    case ForkConversation(id, listing, order, ids, target) =>
      if ForkVerdict(d, actor, id) == Done && Stored(d.messages, order) && |ids| == |order| + 1 {
        ForkFreezes(d, id, listing, order, ids, target, s);
      }
    case DeleteConversation(id, revision, now) =>
      if DeleteConversationVerdict(d, actor, id, revision) == Done { DeleteConversationFreezes(d, id, now, actor.id, s); }
    case RestoreConversation(id) =>
      if RestoreConversationVerdict(d, actor, id) == Done { RestoreConversationFreezes(d, id, s); }
    case ResetConversation(id, now) =>
      if ConversationGate(d, actor, id) == Done { ResetFreezes(d, id, now, s); }
  }


  lemma ClosedAt(m: Messages, conversation: Id, s: Stamp)
    ensures MessagesAt(Closed(m, conversation), s) == MessagesAt(m, s) && Closed(m, conversation).Keys == m.Keys
  {}

  lemma MessageStepFreezes(d: Database, actor: Actor, op: MessageOp, s: Stamp)
    requires MessagePremise(d, op) && (op.DeleteMessage? ==> op.now != s)
    ensures Frozen(d, MessageStep(d, actor, op), s)
  {
    hide ClockPast, NextSequenceNo, IndexAfter, GrownAfter, LinkAll, AppendVerdict, MessageGate, ConversationGate, MessagesAt,
         ProjectsAt, ConversationsAt, Closed;
    if op.CancelTurn? { ClosedAt(d.messages, op.conversation, s); }
    match op
    case Append(conversation, role, content, event, attachments, completed, id) =>
      PutMessageAt(d.messages, id, NewMessage(d, conversation, role, content, event, completed), s);
    case AppendDelta(id, delta) =>
      if MessageGate(d, actor, id) == Done {
        PutMessageAt(d.messages, id, AppendDeltaEffect(d, id, delta).messages[id], s);
      }
    case Complete(id, text) =>
      if MessageGate(d, actor, id) == Done {
        PutMessageAt(d.messages, id, CompletedRow(d.messages[id], text), s);
      }
    case CancelTurn(conversation, note, id) =>
      PutMessageAt(Closed(d.messages, conversation), id, NewMessage(d, conversation, MetaRole, note, None, true), s);
    case DeleteMessage(id, now) =>
      if MessageGate(d, actor, id) == Done {
        MarkMessagesAt(d.messages, {id}, Some(now), s);
      }
  }

  // ------------------------------------------------------- after a deletion

  /** The rows deleted at `s` are exactly these. */
  ghost predicate Comprises(d: Database, batch: Batch, s: Stamp) {
    (forall x :: x in batch.projects <==> x in ProjectsAt(d.projects, s))
    && (forall x :: x in batch.conversations <==> x in ConversationsAt(d.conversations, s))
    && (forall x :: x in batch.messages <==> x in MessagesAt(d.messages, s))
  }

  /** And below the root each lies under another of them. */
  ghost predicate Holds(d: Database, batch: Batch, root: Id, s: Stamp) {
    Comprises(d, batch, s)
    && (forall x :: x in batch.projects && x in d.projects && x != root ==>
          d.projects[x].parent.Some? && d.projects[x].parent.value in batch.projects)
    && (forall x :: x in batch.conversations && x in d.conversations ==> d.conversations[x].project in batch.projects)
  }

  lemma DeletionHolds(d: Database, id: Id, now: Stamp, author: Id)
    requires LiveProject(d.projects, id) && ClockPast(d, now)
    ensures Holds(DeleteProjectEffect(d, id, now, author), DeletionBatch(d, id), id, now)
  {
    var batch := DeletionBatch(d, id);
    forall x | x in batch.projects
      ensures LiveProject(d.projects, x) && (x != id ==> d.projects[x].parent.Some? && d.projects[x].parent.value in batch.projects)
    {
      SubtreeKept(d.projects, LiveProjects(d.projects), id, x);
      if x != id { SubtreeParent(d.projects, LiveProjects(d.projects), id, x); }
    }
  }

  lemma FrozenHolds(d: Database, e: Database, batch: Batch, root: Id, s: Stamp)
    requires Holds(d, batch, root, s) && Frozen(d, e, s)
    ensures Holds(e, batch, root, s)
  {
    forall x | x in batch.projects ensures x in d.projects && x in e.projects && e.projects[x] == d.projects[x] {
      assert x in ProjectsAt(d.projects, s) && ProjectsAt(d.projects, s)[x] == ProjectsAt(e.projects, s)[x];
    }
    forall x | x in batch.conversations ensures x in d.conversations && x in e.conversations && e.conversations[x] == d.conversations[x] {
      assert x in ConversationsAt(d.conversations, s) && ConversationsAt(d.conversations, s)[x] == ConversationsAt(e.conversations, s)[x];
    }
  }

  /** Nothing inside the batch can be restored on its own: its parent is deleted too. */
  lemma OnlyTheRootRestores(d: Database, batch: Batch, root: Id, s: Stamp, actor: Actor, x: Id)
    requires Holds(d, batch, root, s)
    ensures RestoreProjectVerdict(d, actor, x) == Done && x != root ==> d.projects[x].deletedAt != Some(s)
    ensures RestoreConversationVerdict(d, actor, x) == Done ==> d.conversations[x].deletedAt != Some(s)
  {
    assert forall y :: y in batch.projects ==> y in ProjectsAt(d.projects, s) && !LiveProject(d.projects, y);
    assert x in ProjectsAt(d.projects, s) <==> x in d.projects && d.projects[x].deletedAt == Some(s);
    assert x in ConversationsAt(d.conversations, s) <==> x in d.conversations && d.conversations[x].deletedAt == Some(s);
  }

  /** What may come between: anything but a purge and a restoration of the same project. */
  predicate Allowed(op: Runs.Op, root: Id) {
    match op
    case Purge(retention, dryRun, now) => false
    case OnProject(o) => !(o.RestoreProject? && o.id == root)
    case _ => true
  }

  lemma BatchStaysFrozen(d: Database, sha: Bytes -> Digest, batch: Batch, root: Id, s: Stamp, call: Call)
    requires Holds(d, batch, root, s) && root in batch.projects && Premise(d, call.op) && Allowed(call.op, root)
    ensures Frozen(d, Step(d, sha, call.actor, call.op), s)
  {
    hide Holds, Frozen, ProjectStep, ConversationStep, MessageStep, FileStep, Lists, RestoreProjectVerdict, RestoreConversationVerdict;
    LaterReading(d, batch, root, s);
    match call.op
    case OnProject(o) =>
      if o.RestoreProject? { OnlyTheRootRestores(d, batch, root, s, call.actor, o.id); }
      ProjectStepFreezes(d, call.actor, o, s);
    case OnConversation(o) =>
      if o.RestoreConversation? { OnlyTheRootRestores(d, batch, root, s, call.actor, o.id); }
      ConversationStepFreezes(d, call.actor, o, s);
    case OnMessage(o) => MessageStepFreezes(d, call.actor, o, s);
    case OnFile(o) => FileStepFreezes(d, sha, call.actor, o, s);
  }

  /** While the batch is there, the clock has moved past its stamp. */
  lemma LaterReading(d: Database, batch: Batch, root: Id, s: Stamp)
    requires Holds(d, batch, root, s) && root in batch.projects
    ensures forall now :: ClockPast(d, now) ==> now != s
  {
    assert root in ProjectsAt(d.projects, s);
  }

  lemma FilesFreeze(d: Database, f: Files, s: Stamp)
    ensures Frozen(d, d.(files := f), s) && Frozen(d, d, s)
  {}

  lemma FileStepFreezes(d: Database, sha: Bytes -> Digest, actor: Actor, op: FileOp, s: Stamp)
    ensures Frozen(d, FileStep(d, sha, actor, op), s)
  {
    hide Frozen, CommitEffect, Swept, CreateUpload, PutChunk, Unlink, MessageGate;
    match op
    case Initiate(conversation, size, digest, target, id, now) =>
      if InitiateVerdict(d, actor, conversation, size, target) == Done {
        FilesFreeze(d, CreateUpload(d.files, id, actor.id, target, size, digest, now), s);
      } else {
        FilesFreeze(d, d.files, s);
      }
    case SendChunk(upload, number, payload, now) =>
      if PutChunkVerdict(d.files, actor, upload, number, payload, now) == Done {
        FilesFreeze(d, PutChunk(d.files, upload, number, payload), s);
      } else {
        FilesFreeze(d, d.files, s);
      }
    case Commit(upload, message, id, now) =>
      if CommitVerdict(d, sha, actor, upload, message, now) == Done {
        FilesFreeze(d, CommitEffect(d.files, sha, upload, TargetOf(d.files, upload, message), id), s);
      } else {
        FilesFreeze(d, d.files, s);
      }
    case Detach(id, attachment) => FilesFreeze(d, Unlink(d.files, id, attachment), s);
    case Sweep(now) => FilesFreeze(d, Swept(d.files, now), s);
  }

  /** From the deletion of a project on, no row of its batch changes and no other row gets
      its stamp, over every run without a purge or a restoration of that project. */
  lemma {:induction false} BatchOutlivesRun(d: Database, sha: Bytes -> Digest, id: Id, now: Stamp, author: Id,
                                            states: seq<Database>, calls: seq<Call>, n: nat)
    requires LiveProject(d.projects, id) && ClockPast(d, now)
    requires Runs.Run(sha, states, calls) && states[0] == DeleteProjectEffect(d, id, now, author)
    requires forall i :: 0 <= i < |calls| ==> Allowed(calls[i].op, id)
    requires n < |states|
    ensures Frozen(states[0], states[n], now) && Holds(states[n], DeletionBatch(d, id), id, now)
    decreases n
  {
    hide Holds, Frozen, Premise, Step, DeleteProjectEffect, DeletionBatch, Allowed;
    DeletionHolds(d, id, now, author);
    RootInBatch(d, id);
    if n == 0 {
      FrozenRefl(states[0], now);
    } else {
      BatchOutlivesRun(d, sha, id, now, author, states, calls, n - 1);
      BatchStaysFrozen(states[n - 1], sha, DeletionBatch(d, id), id, now, calls[n - 1]);
      FrozenTrans(states[0], states[n - 1], states[n], now);
      FrozenHolds(states[n - 1], states[n], DeletionBatch(d, id), id, now);
    }
  }

  lemma FrozenRefl(d: Database, s: Stamp)
    ensures Frozen(d, d, s)
  {}

  lemma FrozenTrans(a: Database, b: Database, c: Database, s: Stamp)
    requires Frozen(a, b, s) && Frozen(b, c, s)
    ensures Frozen(a, c, s)
  {}

  lemma RootInBatch(d: Database, id: Id)
    ensures id in DeletionBatch(d, id).projects
  {
    SubtreeRoot(d.projects, LiveProjects(d.projects), id);
  }

  // ------------------------------------------------------------- restoration

  /** The walk of the restoration meets the rows the walk of the deletion met. */
  lemma {:induction false} SameFringe(p: Projects, q: Projects, root: Id, s: Stamp, k: nat, x: Id)
    requires k <= MAX_DEPTH
    requires var ids := Subtree(p, LiveProjects(p), root);
             (forall y :: y in Stamped(q, Some(s)) <==> y in ids) && (forall y :: y in ids ==> y in p && y in q && q[y].parent == p[y].parent)
             && forall y :: y in ids ==> LiveProject(p, y)
    ensures x in Fringe(q, Stamped(q, Some(s)), root, k) <==> x in Fringe(p, LiveProjects(p), root, k)
    decreases k
  {
    if k > 0 {
      if x in Fringe(p, LiveProjects(p), root, k) {
        FringeInWithin(p, LiveProjects(p), root, MAX_DEPTH, k, x);
        SameFringe(p, q, root, s, k - 1, p[x].parent.value);
      }
      if x in Fringe(q, Stamped(q, Some(s)), root, k) {
        SameFringe(p, q, root, s, k - 1, q[x].parent.value);
      }
    }
  }

  lemma SameWalk(p: Projects, q: Projects, root: Id, s: Stamp)
    requires var ids := Subtree(p, LiveProjects(p), root);
             (forall y :: y in Stamped(q, Some(s)) <==> y in ids) && (forall y :: y in ids ==> y in p && y in q && q[y].parent == p[y].parent)
             && forall y :: y in ids ==> LiveProject(p, y)
    ensures Subtree(q, Stamped(q, Some(s)), root) == Subtree(p, LiveProjects(p), root)
  {
    var stamped, live := Stamped(q, Some(s)), LiveProjects(p);
    forall x ensures x in Subtree(q, stamped, root) <==> x in Subtree(p, live, root) {
      if x in Subtree(q, stamped, root) {
        var k := DepthWithin(q, stamped, root, MAX_DEPTH, x);
        SameFringe(p, q, root, s, k, x);
        FringeInWithin(p, live, root, MAX_DEPTH, k, x);
      }
      if x in Subtree(p, live, root) {
        var k := DepthWithin(p, live, root, MAX_DEPTH, x);
        SameFringe(p, q, root, s, k, x);
        FringeInWithin(q, stamped, root, MAX_DEPTH, k, x);
      }
    }
  }

  /** The rows of the batch are those of `d`, deleted at `now`. */
  ghost predicate Deleted(d: Database, b: Batch, e: Database, now: Stamp, author: Id) {
    (forall x :: x in b.projects ==>
       LiveProject(d.projects, x) && x in e.projects
       && e.projects[x] == d.projects[x].(deletedAt := Some(now), deletedBy := Some(author), revision := d.projects[x].revision + 1))
    && (forall x :: x in b.conversations ==>
          LiveConversation(d.conversations, x) && x in e.conversations && e.conversations[x]
          == d.conversations[x].(deletedAt := Some(now), deletedBy := Some(author), revision := d.conversations[x].revision + 1))
    && (forall x :: x in b.messages ==>
          LiveMessage(d.messages, x) && x in e.messages && e.messages[x] == d.messages[x].(deletedAt := Some(now)))
  }

  lemma DeletionDeletes(d: Database, id: Id, now: Stamp, author: Id)
    requires LiveProject(d.projects, id)
    ensures Deleted(d, DeletionBatch(d, id), DeleteProjectEffect(d, id, now, author), now, author)
  {
    forall x | x in DeletionBatch(d, id).projects ensures LiveProject(d.projects, x) {
      SubtreeKept(d.projects, LiveProjects(d.projects), id, x);
    }
  }

  lemma FrozenStaysDeleted(d: Database, b: Batch, f: Database, e: Database, now: Stamp, author: Id)
    requires Deleted(d, b, f, now, author) && Frozen(f, e, now)
    ensures Deleted(d, b, e, now, author)
  {
    forall x | x in b.projects ensures x in e.projects && e.projects[x] == f.projects[x] {
      assert x in ProjectsAt(f.projects, now) && ProjectsAt(f.projects, now)[x] == ProjectsAt(e.projects, now)[x];
    }
    forall x | x in b.conversations ensures x in e.conversations && e.conversations[x] == f.conversations[x] {
      assert x in ConversationsAt(f.conversations, now) && ConversationsAt(f.conversations, now)[x] == ConversationsAt(e.conversations, now)[x];
    }
    forall x | x in b.messages ensures x in e.messages && e.messages[x] == f.messages[x] {
      assert x in MessagesAt(f.messages, now) && MessagesAt(f.messages, now)[x] == MessagesAt(e.messages, now)[x];
    }
  }

  /** The restoration finds exactly the rows the deletion took. */
  lemma SameBatch(d: Database, e: Database, id: Id, now: Stamp, author: Id)
    requires Deleted(d, DeletionBatch(d, id), e, now, author) && Holds(e, DeletionBatch(d, id), id, now)
    ensures id in e.projects && RestorationBatch(e, id) == DeletionBatch(d, id)
  {
    var b := DeletionBatch(d, id);
    RootInBatch(d, id);
    assert forall x :: x in Stamped(e.projects, Some(now)) <==> x in ProjectsAt(e.projects, now);
    SameWalk(d.projects, e.projects, id, now);
    var r := RestorationBatch(e, id);
    assert r.projects == b.projects;
    forall x ensures x in r.conversations <==> x in b.conversations {
      assert x in ConversationsAt(e.conversations, now) <==> x in e.conversations && e.conversations[x].deletedAt == Some(now);
    }
    assert r.conversations == b.conversations;
    forall x ensures x in r.messages <==> x in b.messages {
      assert x in MessagesAt(e.messages, now) <==> x in e.messages && e.messages[x].deletedAt == Some(now);
      if x in b.messages { assert e.messages[x].conversation == d.messages[x].conversation; }
    }
  }

  /** The rows of the batch are what they were in `d`, up to revision and `deletedBy`; every
      other row is what it was in `e`. */
  ghost predicate Undone(d: Database, b: Batch, e: Database, f: Database) {
    f.projects.Keys == e.projects.Keys && f.conversations.Keys == e.conversations.Keys && f.messages.Keys == e.messages.Keys
    && (forall x :: x in b.projects ==>
          x in f.projects && x in d.projects
          && f.projects[x] == d.projects[x].(revision := d.projects[x].revision + 2, deletedBy := None))
    && (forall x :: x in b.conversations ==>
          x in f.conversations && x in d.conversations
          && f.conversations[x] == d.conversations[x].(revision := d.conversations[x].revision + 2, deletedBy := None))
    && (forall x :: x in b.messages ==> x in f.messages && x in d.messages && f.messages[x] == d.messages[x])
    && (forall x :: x in e.projects && x !in b.projects ==> f.projects[x] == e.projects[x])
    && (forall x :: x in e.conversations && x !in b.conversations ==> f.conversations[x] == e.conversations[x])
    && (forall x :: x in e.messages && x !in b.messages ==> f.messages[x] == e.messages[x])
  }

  lemma RestorationRestores(d: Database, e: Database, id: Id, now: Stamp, author: Id)
    requires id in e.projects && Deleted(d, RestorationBatch(e, id), e, now, author)
    ensures Undone(d, RestorationBatch(e, id), e, RestoreProjectEffect(e, id))
  {
    hide RestorationBatch;
  }

  /** Whatever happened since the deletion of a project, short of a purge or another
      restoration of it: if restoring it succeeds, the rows of its batch are what they were
      before the deletion, up to revision and `deletedBy`, and no other row changes. */
  lemma RestorationUndoesDeletion(d: Database, sha: Bytes -> Digest, id: Id, now: Stamp, author: Id,
                                  states: seq<Database>, calls: seq<Call>, n: nat, actor: Actor)
    requires LiveProject(d.projects, id) && ClockPast(d, now)
    requires Runs.Run(sha, states, calls) && states[0] == DeleteProjectEffect(d, id, now, author)
    requires forall i :: 0 <= i < |calls| ==> Allowed(calls[i].op, id)
    requires n < |states| && RestoreProjectVerdict(states[n], actor, id) == Done
    ensures Undone(d, DeletionBatch(d, id), states[n], RestoreProjectEffect(states[n], id))
  {
    hide Undone, Deleted, Frozen, Holds, Premise, Step, ClockPast, DeleteProjectEffect, DeletionBatch, RestorationBatch, RestoreProjectEffect, Allowed;
    BatchOutlivesRun(d, sha, id, now, author, states, calls, n);
    DeletionDeletes(d, id, now, author);
    FrozenStaysDeleted(d, DeletionBatch(d, id), states[0], states[n], now, author);
    SameBatch(d, states[n], id, now, author);
    RestorationRestores(d, states[n], id, now, author);
  }

  // ----------------------------------------------------------- conversations

  /** What the deletion of a conversation takes. */
  function TalkBatch(d: Database, id: Id): Batch { Batch({}, {id}, LiveMessagesOf(d.messages, {id})) }

  lemma TalkDeletionComprises(d: Database, id: Id, now: Stamp, author: Id)
    requires LiveConversation(d.conversations, id) && ClockPast(d, now)
    ensures Comprises(DeleteConversationEffect(d, id, now, author), TalkBatch(d, id), now)
    ensures Deleted(d, TalkBatch(d, id), DeleteConversationEffect(d, id, now, author), now, author)
  {}

  lemma FrozenComprises(d: Database, e: Database, batch: Batch, s: Stamp)
    requires Comprises(d, batch, s) && Frozen(d, e, s)
    ensures Comprises(e, batch, s)
  {
    hide ProjectsAt, ConversationsAt, MessagesAt;
  }

  /** What may come between: anything but a purge and a restoration of the same
      conversation. */
  predicate TalkAllowed(op: Runs.Op, id: Id) {
    match op
    case Purge(retention, dryRun, now) => false
    case OnConversation(o) => !(o.RestoreConversation? && o.id == id)
    case _ => true
  }

  /** Only this row has its stamp: no project came with it, and no other conversation. */
  lemma TalkStampedAlone(d: Database, id: Id, messages: set<Id>, s: Stamp)
    requires Comprises(d, Batch({}, {id}, messages), s)
    ensures forall x :: x in d.projects ==> d.projects[x].deletedAt != Some(s)
    ensures id in d.conversations && forall x :: x in d.conversations ==> (d.conversations[x].deletedAt == Some(s) <==> x == id)
    ensures forall now :: ClockPast(d, now) ==> now != s
  {
    assert forall x :: x in ProjectsAt(d.projects, s) <==> x in d.projects && d.projects[x].deletedAt == Some(s);
    assert forall x :: x in ConversationsAt(d.conversations, s) <==> x in d.conversations && d.conversations[x].deletedAt == Some(s);
    assert id in ConversationsAt(d.conversations, s);
  }

  lemma TalkStaysFrozen(d: Database, sha: Bytes -> Digest, id: Id, messages: set<Id>, s: Stamp, call: Call)
    requires Comprises(d, Batch({}, {id}, messages), s) && Premise(d, call.op) && TalkAllowed(call.op, id)
    ensures Frozen(d, Step(d, sha, call.actor, call.op), s)
  {
    hide Comprises, Frozen, ProjectStep, ConversationStep, MessageStep, FileStep, Lists, ClockPast;
    TalkStampedAlone(d, id, messages, s);
    match call.op
    case OnProject(o) => ProjectStepFreezes(d, call.actor, o, s);
    case OnConversation(o) => ConversationStepFreezes(d, call.actor, o, s);
    case OnMessage(o) => MessageStepFreezes(d, call.actor, o, s);
    case OnFile(o) => FileStepFreezes(d, sha, call.actor, o, s);
  }

  /** From the deletion of a conversation on, neither its row nor the rows of the messages
      deleted with it change, and no other row gets their stamp: whatever happens to the
      projects above, over every run without a purge or a restoration of it. */
  lemma {:induction false} TalkOutlivesRun(d: Database, sha: Bytes -> Digest, id: Id, now: Stamp, author: Id,
                                           states: seq<Database>, calls: seq<Call>, n: nat)
    requires LiveConversation(d.conversations, id) && ClockPast(d, now)
    requires Runs.Run(sha, states, calls) && states[0] == DeleteConversationEffect(d, id, now, author)
    requires forall i :: 0 <= i < |calls| ==> TalkAllowed(calls[i].op, id)
    requires n < |states|
    ensures Frozen(states[0], states[n], now) && Comprises(states[n], TalkBatch(d, id), now)
    decreases n
  {
    hide Comprises, Frozen, Premise, Step, DeleteConversationEffect, TalkAllowed, Deleted;
    TalkDeletionComprises(d, id, now, author);
    if n == 0 {
      FrozenRefl(states[0], now);
    } else {
      TalkOutlivesRun(d, sha, id, now, author, states, calls, n - 1);
      TalkStaysFrozen(states[n - 1], sha, id, LiveMessagesOf(d.messages, {id}), now, calls[n - 1]);
      FrozenTrans(states[0], states[n - 1], states[n], now);
      FrozenComprises(states[n - 1], states[n], TalkBatch(d, id), now);
    }
  }

  /** The restoration finds exactly the messages the deletion took. */
  lemma SameTalkBatch(d: Database, e: Database, id: Id, now: Stamp, author: Id)
    requires Deleted(d, TalkBatch(d, id), e, now, author) && Comprises(e, TalkBatch(d, id), now)
    ensures id in e.conversations && e.conversations[id].deletedAt == Some(now)
    ensures StampedMessages(e.messages, {id}, Some(now)) == LiveMessagesOf(d.messages, {id})
  {
    var found, taken := StampedMessages(e.messages, {id}, Some(now)), LiveMessagesOf(d.messages, {id});
    forall x ensures x in found <==> x in taken {
      assert x in MessagesAt(e.messages, now) <==> x in e.messages && e.messages[x].deletedAt == Some(now);
      if x in taken { assert e.messages[x].conversation == d.messages[x].conversation; }
    }
  }

  lemma TalkRestores(d: Database, e: Database, id: Id, now: Stamp, author: Id)
    requires Deleted(d, TalkBatch(d, id), e, now, author) && id in e.conversations && e.conversations[id].deletedAt == Some(now)
    requires StampedMessages(e.messages, {id}, Some(now)) == LiveMessagesOf(d.messages, {id})
    ensures Undone(d, TalkBatch(d, id), e, RestoreConversationEffect(e, id))
  {
    hide LiveMessagesOf, StampedMessages;
  }

  /** Whatever happened since the deletion of a conversation, short of a purge or another
      restoration of it: if restoring it succeeds, it and the messages deleted with it are
      what they were before the deletion, up to revision and `deletedBy`, and no other row
      changes. */
  lemma TalkRestorationUndoesDeletion(d: Database, sha: Bytes -> Digest, id: Id, now: Stamp, author: Id,
                                      states: seq<Database>, calls: seq<Call>, n: nat, actor: Actor)
    requires LiveConversation(d.conversations, id) && ClockPast(d, now)
    requires Runs.Run(sha, states, calls) && states[0] == DeleteConversationEffect(d, id, now, author)
    requires forall i :: 0 <= i < |calls| ==> TalkAllowed(calls[i].op, id)
    requires n < |states| && RestoreConversationVerdict(states[n], actor, id) == Done
    ensures Undone(d, TalkBatch(d, id), states[n], RestoreConversationEffect(states[n], id))
  {
    hide Undone, Deleted, Frozen, Comprises, Premise, Step, ClockPast, DeleteConversationEffect, RestoreConversationEffect, TalkAllowed;
    TalkOutlivesRun(d, sha, id, now, author, states, calls, n);
    TalkDeletionComprises(d, id, now, author);
    FrozenStaysDeleted(d, TalkBatch(d, id), states[0], states[n], now, author);
    SameTalkBatch(d, states[n], id, now, author);
    TalkRestores(d, states[n], id, now, author);
  }
}
