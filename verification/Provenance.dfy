/** Where a fork came from, over whole runs. */
module Provenance {
  import opened Base
  import opened Levels
  import opened Tables
  import opened Files
  import opened Schema
  import opened Indexing
  import opened ProjectJobs
  import opened ConversationJobs
  import opened MessageJobs
  import opened ForkJob
  import opened AttachmentJobs
  import opened Maintenance
  import opened Purge
  import opened Runs

  predicate HasOrigin(row: Conversation) { row.forkedFrom.Some? || row.forkedSession.Some? }

  /** The origin is what it was, or the reference to it became the session it is known by:
      the one recorded at the fork, else the id of the conversation. */
  predicate SameOrigin(before: Conversation, after: Conversation) {
    (after.forkedFrom == before.forkedFrom && after.forkedSession == before.forkedSession)
    || (before.forkedFrom.Some? && after.forkedFrom == None
        && after.forkedSession == if before.forkedSession.Some? then before.forkedSession else before.forkedFrom)
  }

  /** Between two states every conversation that is in both kept its origin, but perhaps
      `reset`. */
  ghost predicate OriginsKept(c: Conversations, e: Conversations, reset: Option<Id>) {
    forall id :: id in c && id in e && Some(id) != reset ==> SameOrigin(c[id], e[id])
  }

  function ResetBy(op: Runs.Op): Option<Id> {
    match op
    case OnConversation(ResetConversation(id, now)) => Some(id)
    case _ => None
  }

  lemma MarkKeepsOrigins(c: Conversations, ids: set<Id>, stamp: Option<Stamp>, author: Option<Id>)
    ensures OriginsKept(c, MarkConversations(c, ids, stamp, author), None)
  {}

  lemma PutKeepsOrigins(c: Conversations, id: Id, row: Conversation)
    requires id in c ==> SameOrigin(c[id], row)
    ensures OriginsKept(c, c[id := row], None)
  {}

  lemma RekeyKeepsOrigins(c: Conversations, updates: seq<Entry>, id: Id, row: Conversation)
    requires id in c ==> SameOrigin(c[id], row)
    ensures OriginsKept(c, RekeyedIn(c, updates)[id := row], None)
  {
    RekeyedInOnlyKeys(c, updates);
  }

  lemma DetachKeepsOrigins(c: Conversations, gone: set<Id>, part: set<Id>)
    ensures OriginsKept(c, DetachForks(c, gone) - part, None)
  {}

  lemma ProjectStepOrigins(d: Database, actor: Actor, op: ProjectOp)
    ensures OriginsKept(d.conversations, ProjectStep(d, actor, op).conversations, None)
  {
    hide OriginsKept, Place, Rekeyed, Subtree, MarkConversations, ReindexedConversations, ReindexedMessages;
    SameRows(d.conversations);
    match op
    case DeleteProject(id, revision, now) =>
      MarkKeepsOrigins(d.conversations, DeletionBatch(d, id).conversations, Some(now), Some(actor.id));
    case RestoreProject(id) =>
      if id in d.projects { MarkKeepsOrigins(d.conversations, RestorationBatch(d, id).conversations, None, None); }
    case _ =>
  }

  lemma SameRows(c: Conversations)
    ensures OriginsKept(c, c, None)
  {}

  lemma NewTalkOrigins(d: Database, actor: Actor, op: ConversationOp)
    requires op.CreateConversation? && ConversationPremise(d, op)
    ensures OriginsKept(d.conversations, ConversationStep(d, actor, op).conversations, None)
  {
    hide OriginsKept, Place, RekeyedIn, Lists, UniqueConversationName;
    SameRows(d.conversations);
    if CreateConversationVerdict(d, actor, op.project, op.name) == Done {
      var e := CreateConversationEffect(d, op.project, op.name, op.index, op.id, op.listing).conversations;
      RekeyKeepsOrigins(d.conversations, Place(op.listing, op.index).updates, op.id, e[op.id]);
    }
  }

  lemma MovedTalkOrigins(d: Database, actor: Actor, op: ConversationOp)
    requires op.MoveConversation?
    ensures OriginsKept(d.conversations, ConversationStep(d, actor, op).conversations, None)
  {
    hide OriginsKept, Place, RekeyedIn, ReindexedConversations, ReindexedMessages, MoveConversationVerdict;
    SameRows(d.conversations);
    if MoveConversationVerdict(d, actor, op.id, op.expected, op.project) == Done {
      var updates := Place(Except(op.listing, op.id), op.index).updates;
      RekeyedInOnlyKeys(d.conversations, updates);
      RekeyKeepsOrigins(d.conversations, updates, op.id, MoveConversationEffect(d, op.id, op.project, op.index, op.listing).conversations[op.id]);
    }
  }

  lemma ForkedOrigins(d: Database, actor: Actor, op: ConversationOp)
    requires op.ForkConversation? && ConversationPremise(d, op)
    ensures OriginsKept(d.conversations, ConversationStep(d, actor, op).conversations, None)
  {
    hide OriginsKept, Place, RekeyedIn, Lists, ForkedMessages, ForkPlacement, CopyAllLinks, ReindexedConversations, ReindexedMessages,
         NewIds, Stored, Transcript, ForkVerdict, ForkRow;
    SameRows(d.conversations);
    if ForkVerdict(d, actor, op.id) == Done && Stored(d.messages, op.order) && |op.ids| == |op.order| + 1 {
      var placement := ForkPlacement(d.conversations, op.id, op.listing);
      RekeyKeepsOrigins(d.conversations, placement.updates, op.target, ForkRow(d.conversations, op.id, placement.key));
    }
  }

  lemma UpdatedOrigins(d: Database, actor: Actor, op: ConversationOp)
    requires op.UpdateConversation?
    ensures OriginsKept(d.conversations, ConversationStep(d, actor, op).conversations, None)
  {
    hide OriginsKept, UpdateConversationVerdict;
    SameRows(d.conversations);
    if UpdateConversationVerdict(d, actor, op.id, op.expected, op.rename) == Done {
      PutKeepsOrigins(d.conversations, op.id, UpdateConversationEffect(d, op.id, op.rename).conversations[op.id]);
    }
  }

  lemma RunnerOrigins(d: Database, actor: Actor, op: ConversationOp)
    requires op.SetRunner?
    ensures OriginsKept(d.conversations, ConversationStep(d, actor, op).conversations, None)
  {
    hide OriginsKept, SetRunnerVerdict;
    SameRows(d.conversations);
    if SetRunnerVerdict(d, actor, op.id, op.thread, op.session) == Done {
      PutKeepsOrigins(d.conversations, op.id, SetRunnerEffect(d, op.id, op.thread, op.session).conversations[op.id]);
    }
  }

  lemma MarkedOrigins(d: Database, actor: Actor, op: ConversationOp)
    requires op.DeleteConversation? || op.RestoreConversation?
    ensures OriginsKept(d.conversations, ConversationStep(d, actor, op).conversations, None)
  {
    hide OriginsKept, MarkConversations, MarkMessages, ReindexedConversations, ReindexedMessages, DeleteConversationVerdict,
         RestoreConversationVerdict;
    SameRows(d.conversations);
    match op
    case DeleteConversation(id, revision, now) => MarkKeepsOrigins(d.conversations, {id}, Some(now), Some(actor.id));
    case RestoreConversation(id) => MarkKeepsOrigins(d.conversations, {id}, None, None);
  }

  lemma ConversationStepOrigins(d: Database, actor: Actor, op: ConversationOp)
    requires ConversationPremise(d, op)
    ensures OriginsKept(d.conversations, ConversationStep(d, actor, op).conversations, ResetBy(OnConversation(op)))
  {
    hide OriginsKept, ConversationPremise, MarkMessages;
    if op.ResetConversation? {
      NoReset(d.conversations, op.id);
      if ConversationGate(d, actor, op.id) == Done { OneReset(d.conversations, op.id, ResetEffect(d, op.id, op.now).conversations[op.id]); }
    } else {
      hide ConversationStep;
      match op
      case CreateConversation(project, name, index, id, listing) => NewTalkOrigins(d, actor, op);
      case MoveConversation(id, expected, project, index, listing) => MovedTalkOrigins(d, actor, op);
      case ForkConversation(id, listing, order, ids, target) => ForkedOrigins(d, actor, op);
      case UpdateConversation(id, expected, rename) => UpdatedOrigins(d, actor, op);
      case SetRunner(id, thread, session) => RunnerOrigins(d, actor, op);
      case _ => MarkedOrigins(d, actor, op);
    }
  }

  lemma OneReset(c: Conversations, id: Id, row: Conversation)
    ensures OriginsKept(c, c[id := row], Some(id))
  {}

  lemma NoReset(c: Conversations, id: Id)
    ensures OriginsKept(c, c, Some(id))
  {}

  lemma MessageStepConversations(d: Database, actor: Actor, op: MessageOp)
    ensures MessageStep(d, actor, op).conversations == d.conversations
  {
    hide LinkAll, IndexAfter, GrownAfter, NextSequenceNo;
  }

  lemma FileStepConversations(d: Database, sha: Bytes -> Digest, actor: Actor, op: FileOp)
    ensures FileStep(d, sha, actor, op).conversations == d.conversations
  {
    hide CommitEffect, Swept, CreateUpload, PutChunk, Unlink;
  }

  lemma StepOrigins(d: Database, sha: Bytes -> Digest, actor: Actor, op: Runs.Op)
    requires Premise(d, op)
    ensures OriginsKept(d.conversations, Step(d, sha, actor, op).conversations, ResetBy(op))
  {
    hide OriginsKept, ProjectPremise, ConversationPremise, MessagePremise, FilePremise, ProjectStep, ConversationStep, MessageStep,
         FileStep, DetachForks;
    SameRows(d.conversations);
    match op
    case OnProject(o) => ProjectStepOrigins(d, actor, o);
    case OnConversation(o) => ConversationStepOrigins(d, actor, o);
    case OnMessage(o) => MessageStepConversations(d, actor, o);
    case OnFile(o) => FileStepConversations(d, sha, actor, o);
    case Purge(retention, dryRun, now) =>
      var gone := DueConversations(d.conversations, now - retention * DAY_MS);
      DetachKeepsOrigins(d.conversations, gone, gone);
  }

  /** A fork keeps its origin while it exists and nobody resets it, whatever else happens:
      as a reference, or, once that conversation was purged, as a session. */
  lemma {:induction false} ForkKeepsOrigin(sha: Bytes -> Digest, states: seq<Database>, calls: seq<Call>, i: nat, j: nat, id: Id)
    requires Runs.Run(sha, states, calls) && i <= j < |states|
    requires forall k :: i <= k <= j ==> id in states[k].conversations
    requires forall k :: i <= k < j ==> ResetBy(calls[k].op) != Some(id)
    ensures SameOrigin(states[i].conversations[id], states[j].conversations[id])
    ensures HasOrigin(states[i].conversations[id]) ==> HasOrigin(states[j].conversations[id])
    decreases j - i
  {
    hide Premise, Step;
    if i < j {
      ForkKeepsOrigin(sha, states, calls, i, j - 1, id);
      StepOrigins(states[j - 1], sha, calls[j - 1].actor, calls[j - 1].op);
    }
  }
}
