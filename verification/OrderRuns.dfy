/** Over every run without a restoration, a level of the tree is the plain list that the
  calls so far describe. */
module OrderRuns {
  import opened Base
  import opened Ids
  import opened Levels
  import opened Tables
  import opened Files
  import opened Schema
  import opened Indexing
  import opened ProjectJobs
  import opened ConversationJobs
  import opened MessageJobs
  import opened ForkJob
  import opened AttachmentJobs
  import opened Maintenance
  import opened Purge
  import opened Ordering
  import opened Runs

  /** What a call does to the plain list of the projects below `parent`. */
  function ListAfter(d: Database, call: Call, parent: Option<Id>, list: seq<Id>): seq<Id> {
    match call.op
    case OnProject(CreateProject(up, name, index, prompt, id, listing)) =>
      if CreateProjectVerdict(d, call.actor, up, name) == Done && up == parent then Levels.InsertAt(list, Clamp(index, |list|), id) else list
    case OnProject(MoveProject(id, expected, up, index, listing)) =>
      if MoveProjectVerdict(d, call.actor, id, expected, up) != Done then list
      else
        var rest := if d.projects[id].parent == parent then Without(list, id) else list;
        if up == parent then Levels.InsertAt(rest, Clamp(index, |rest|), id) else rest
    case OnProject(DeleteProject(id, revision, now)) =>
      if DeleteProjectVerdict(d, call.actor, id, revision) != Done then list
      else if parent.Some? && parent.value in DeletionBatch(d, id).projects then []
      else if d.projects[id].parent == parent then Without(list, id) else list
    case _ => list
  }

  /** The list of a level after the first `n` calls. */
  function ListOf(states: seq<Database>, calls: seq<Call>, parent: Option<Id>, n: nat): seq<Id>
    requires n <= |calls| <= |states|
  {
    if n == 0 then [] else ListAfter(states[n - 1], calls[n - 1], parent, ListOf(states, calls, parent, n - 1))
  }

  // ------------------------------------------------------------- other levels

  lemma MoveElsewhere(d: Database, id: Id, up: Option<Id>, index: Option<int>, listing: seq<Entry>, parent: Option<Id>)
    requires LiveProject(d.projects, id) && Levels.Lists(ProjectLevel(d.projects, up), listing)
    requires parent != up && parent != d.projects[id].parent
    ensures ProjectLevel(MoveProjectEffect(d, id, up, index, listing).projects, parent) == ProjectLevel(d.projects, parent)
  {
    hide Place, ProjectLevel, Applied, Levels.Lists, Rekeyed, MoveProjectEffect;
    var placement := Place(Except(listing, id), index);
    UpdatesInLevel(ProjectLevel(d.projects, up), listing, id, index);
    var row := MovedRow(d, id, up, index, listing);
    RelistedLevels(d.projects, id, row, placement.updates, parent);
    NotThere(d.projects, id, parent);
  }

  lemma NotThere(p: Projects, id: Id, parent: Option<Id>)
    requires id in p && p[id].parent != parent
    ensures ProjectLevel(p, parent) - {id} == ProjectLevel(p, parent)
  {}

  lemma BatchParents(p: Projects, id: Id, x: Id)
    requires x in Subtree(p, LiveProjects(p), id) && x != id
    ensures x in p && p[x].parent.Some? && p[x].parent.value in Subtree(p, LiveProjects(p), id)
  {
    SubtreeParent(p, LiveProjects(p), id, x);
  }

  /** Below a deleted project nothing is left. */
  lemma DeleteBelow(p: Projects, id: Id, now: Stamp, author: Id, up: Id)
    requires Bounded(p, LiveProjects(p), id) && up in Subtree(p, LiveProjects(p), id)
    ensures ProjectLevel(MarkProjects(p, Subtree(p, LiveProjects(p), id), Some(now), Some(author)), Some(up)) == map[]
  {
    hide Subtree, Bounded;
    var keep := LiveProjects(p);
    forall x | x in keep && p[x].parent == Some(up) ensures x in Subtree(p, keep, id) {
      SubtreeClosed(p, keep, id, x);
    }
  }

  /** Where neither the deleted project nor a parent in its batch is, nothing changes. */
  lemma DeleteBeside(p: Projects, id: Id, now: Stamp, author: Id, parent: Option<Id>)
    requires id in p && parent != p[id].parent && (parent.Some? ==> parent.value !in Subtree(p, LiveProjects(p), id))
    ensures ProjectLevel(MarkProjects(p, Subtree(p, LiveProjects(p), id), Some(now), Some(author)), parent) == ProjectLevel(p, parent)
  {
    hide Subtree, ProjectLevel;
    var batch := Subtree(p, LiveProjects(p), id);
    forall x | x in batch ensures x in p ==> p[x].parent != parent {
      if x != id { BatchParents(p, id, x); }
    }
    MarkedBeside(p, batch, now, author, parent);
  }

  lemma MarkedBeside(p: Projects, ids: set<Id>, now: Stamp, author: Id, parent: Option<Id>)
    requires forall x :: x in ids && x in p ==> p[x].parent != parent
    ensures ProjectLevel(MarkProjects(p, ids, Some(now), Some(author)), parent) == ProjectLevel(p, parent)
  {
  }

  lemma DeleteElsewhere(d: Database, id: Id, now: Stamp, author: Id, parent: Option<Id>)
    requires LiveProject(d.projects, id) && Bounded(d.projects, LiveProjects(d.projects), id)
    requires parent != d.projects[id].parent || (parent.Some? && parent.value in DeletionBatch(d, id).projects)
    ensures ProjectLevel(DeleteProjectEffect(d, id, now, author).projects, parent)
            == if parent.Some? && parent.value in DeletionBatch(d, id).projects then map[] else ProjectLevel(d.projects, parent)
  {
    hide Subtree, Bounded, ProjectLevel;
    if parent.Some? && parent.value in DeletionBatch(d, id).projects {
      DeleteBelow(d.projects, id, now, author, parent.value);
    } else {
      DeleteBeside(d.projects, id, now, author, parent);
    }
  }

  lemma Emptied(limit: nat)
    ensures Represents(map[], [], limit)
  {}

  // ------------------------------------------------------------------- steps

  ghost predicate Roomy(list: seq<Id>, limit: nat) {
    limit > MAX_RANK_LENGTH && forall n :: 0 <= n <= |list| + 1 ==> Width(n) <= limit
  }

  lemma CreateStep(d: Database, sha: Bytes -> Digest, call: Call, parent: Option<Id>, list: seq<Id>, limit: nat)
    requires Premise(d, call.op) && call.op.OnProject? && call.op.project.CreateProject?
    requires Represents(ProjectLevel(d.projects, parent), list, limit) && Roomy(list, limit)
    ensures Represents(ProjectLevel(Step(d, sha, call.actor, call.op).projects, parent), ListAfter(d, call, parent, list), limit)
  {
    hide Represents, ProjectLevel, CreateProjectEffect, Levels.Lists;
    var op := call.op.project;
    if CreateProjectVerdict(d, call.actor, op.parent, op.name) == Done {
      var name := Clean(op.name).value;
      if op.parent == parent {
        CreatedAtIndex(d, call.actor, parent, name, op.index, op.prompt, op.id, op.listing, list, limit);
      } else {
        CreateProjectInserts(d, call.actor, op.parent, name, op.index, op.prompt, op.id, op.listing, parent);
      }
    }
  }

  lemma MoveStep(d: Database, sha: Bytes -> Digest, call: Call, parent: Option<Id>, list: seq<Id>, limit: nat)
    requires Premise(d, call.op) && call.op.OnProject? && call.op.project.MoveProject?
    requires Represents(ProjectLevel(d.projects, parent), list, limit) && Roomy(list, limit)
    ensures Represents(ProjectLevel(Step(d, sha, call.actor, call.op).projects, parent), ListAfter(d, call, parent, list), limit)
  {
    hide Represents, ProjectLevel, MoveProjectEffect, Levels.Lists;
    var op := call.op.project;
    if MoveProjectVerdict(d, call.actor, op.id, op.expected, op.parent) == Done {
      if op.parent == parent {
        MovedToIndex(d, op.id, parent, op.index, op.listing, list, limit);
      } else if d.projects[op.id].parent == parent {
        MoveProjectMoves(d, op.id, op.parent, op.index, op.listing);
        InItsLevel(d.projects, op.id);
        RemovalRefines(ProjectLevel(d.projects, parent), list, op.id, limit);
      } else {
        MoveElsewhere(d, op.id, op.parent, op.index, op.listing, parent);
      }
    }
  }

  lemma InItsLevel(p: Projects, id: Id)
    requires LiveProject(p, id)
    ensures Enabled(ProjectLevel(p, p[id].parent), Remove(id))
  {}

  lemma DeleteStep(d: Database, sha: Bytes -> Digest, call: Call, parent: Option<Id>, list: seq<Id>, limit: nat)
    requires Acyclic(d.projects) && WalksComplete(d, call.actor, call.op) && call.op.OnProject? && call.op.project.DeleteProject?
    requires Represents(ProjectLevel(d.projects, parent), list, limit) && Roomy(list, limit)
    ensures Represents(ProjectLevel(Step(d, sha, call.actor, call.op).projects, parent), ListAfter(d, call, parent, list), limit)
  {
    hide Represents, ProjectLevel, DeleteProjectEffect, DeletionBatch, Bounded, Acyclic;
    var op := call.op.project;
    if DeleteProjectVerdict(d, call.actor, op.id, op.revision) == Done {
      Emptied(limit);
      if d.projects[op.id].parent == parent && !(parent.Some? && parent.value in DeletionBatch(d, op.id).projects) {
        DeleteProjectRemoves(d, op.id, op.now, call.actor.id);
        InItsLevel(d.projects, op.id);
        RemovalRefines(ProjectLevel(d.projects, parent), list, op.id, limit);
      } else {
        DeleteElsewhere(d, op.id, op.now, call.actor.id, parent);
      }
    }
  }

  /** No restoration of a project or conversation: a restored row brings its old key back,
      which may tie with a newer sibling's. */
  predicate Restores(d: Database, call: Call) {
    match call.op
    case OnProject(RestoreProject(id)) => RestoreProjectVerdict(d, call.actor, id) == Done
    case OnConversation(RestoreConversation(id)) => RestoreConversationVerdict(d, call.actor, id) == Done
    case _ => false
  }

  ghost predicate NoRestoration(states: seq<Database>, calls: seq<Call>)
    requires |calls| <= |states|
  {
    forall i :: 0 <= i < |calls| ==> !Restores(states[i], calls[i])
  }

  lemma UpdateKeepsLevel(d: Database, id: Id, rename: Option<string>, text: Option<string>, parent: Option<Id>)
    requires LiveProject(d.projects, id) && (rename.Some? ==> Clean(rename.value).Some?)
    ensures ProjectLevel(UpdateProjectEffect(d, id, rename, text).projects, parent) == ProjectLevel(d.projects, parent)
  {}

  lemma PurgeKeepsLevel(d: Database, cutoff: Stamp, parent: Option<Id>)
    ensures ProjectLevel(PurgeEffect(d, cutoff).projects, parent) == ProjectLevel(d.projects, parent)
  {}

  lemma ConversationStepProjects(d: Database, actor: Actor, op: ConversationOp)
    ensures ConversationStep(d, actor, op).projects == d.projects
  {
    hide Place, RekeyedIn, ForkedMessages, ForkRow, ForkPlacement, CopyAllLinks, LiveMessagesOf, ReindexedMessages, ReindexedConversations,
         MarkMessages, MarkConversations, StampedMessages, ConversationGate, UniqueConversationName, CreateConversationVerdict,
         UpdateConversationVerdict, MoveConversationVerdict, ForkVerdict, DeleteConversationVerdict, RestoreConversationVerdict, Except;
  }

  lemma MessageStepProjects(d: Database, actor: Actor, op: MessageOp)
    ensures MessageStep(d, actor, op).projects == d.projects
  {
    hide LinkAll, IndexAfter, GrownAfter, NextSequenceNo;
  }

  /** Every other job leaves the order of projects alone. */
  lemma OtherProjectStep(d: Database, actor: Actor, op: ProjectOp, parent: Option<Id>)
    requires !op.CreateProject? && !op.MoveProject? && !op.DeleteProject?
    requires op.RestoreProject? ==> RestoreProjectVerdict(d, actor, op.id) != Done
    ensures ProjectLevel(ProjectStep(d, actor, op).projects, parent) == ProjectLevel(d.projects, parent)
  {
    hide ProjectLevel, UpdateProjectEffect;
    match op
    case UpdateProject(id, expected, rename, text) =>
      if UpdateProjectVerdict(d, actor, id, expected, rename) == Done {
        UpdateProjectChecks(d, actor, id, expected, rename);
        UpdateKeepsLevel(d, id, rename, text, parent);
      }
    case _ =>
  }

  lemma FileStepProjects(d: Database, sha: Bytes -> Digest, actor: Actor, op: FileOp)
    ensures FileStep(d, sha, actor, op).projects == d.projects && FileStep(d, sha, actor, op).conversations == d.conversations
  {
    hide CommitEffect, Swept, CreateUpload, PutChunk, Unlink, CommitVerdict, InitiateVerdict, PutChunkVerdict, MessageGate;
  }

  lemma OtherStep(d: Database, sha: Bytes -> Digest, call: Call, parent: Option<Id>)
    requires !Restores(d, call)
    requires call.op.OnProject? ==> !call.op.project.CreateProject? && !call.op.project.MoveProject? && !call.op.project.DeleteProject?
    ensures ProjectLevel(Step(d, sha, call.actor, call.op).projects, parent) == ProjectLevel(d.projects, parent)
  {
    hide ProjectLevel, ProjectStep, ConversationStep, MessageStep, FileStep, PurgeEffect;
    match call.op
    case OnProject(o) => OtherProjectStep(d, call.actor, o, parent);
    case OnConversation(o) => ConversationStepProjects(d, call.actor, o);
    case OnMessage(o) => MessageStepProjects(d, call.actor, o);
    case OnFile(o) => FileStepProjects(d, sha, call.actor, o);
    case Purge(retention, dryRun, now) => PurgeKeepsLevel(d, now - retention * DAY_MS, parent);
  }

  lemma AnyStep(d: Database, sha: Bytes -> Digest, call: Call, parent: Option<Id>, list: seq<Id>, limit: nat)
    requires Acyclic(d.projects) && Premise(d, call.op) && WalksComplete(d, call.actor, call.op) && !Restores(d, call)
    requires Represents(ProjectLevel(d.projects, parent), list, limit) && Roomy(list, limit)
    ensures Represents(ProjectLevel(Step(d, sha, call.actor, call.op).projects, parent), ListAfter(d, call, parent, list), limit)
  {
    hide Represents, ProjectLevel, Step, Premise, WalksComplete, Restores, Roomy, Acyclic;
    match call.op
    case OnProject(CreateProject(up, name, index, prompt, id, listing)) => CreateStep(d, sha, call, parent, list, limit);
    case OnProject(MoveProject(id, expected, up, index, listing)) => MoveStep(d, sha, call, parent, list, limit);
    case OnProject(DeleteProject(id, revision, now)) => DeleteStep(d, sha, call, parent, list, limit);
    case _ => OtherStep(d, sha, call, parent);
  }

  lemma ListGrowsByOne(d: Database, call: Call, parent: Option<Id>, list: seq<Id>)
    ensures |ListAfter(d, call, parent, list)| <= |list| + 1
  {
    match call.op
    case OnProject(MoveProject(id, expected, up, index, listing)) => WithoutLength(list, id);
    case OnProject(DeleteProject(id, revision, now)) => WithoutLength(list, id);
    case _ =>
  }

  lemma WidthsFit(n: nat, limit: nat)
    requires limit > MAX_RANK_LENGTH && (n + 2) * 4 <= Pow(MAX_RANK_LENGTH)
    ensures forall m :: 0 <= m <= n + 1 ==> Width(m) <= limit
  {
    forall m | 0 <= m <= n + 1 ensures Width(m) <= limit {
      WidthExact(m, limit);
      PowMonotone(MAX_RANK_LENGTH, limit);
    }
  }

  /** Over every run from the empty database without a restoration: sorted by key, the live
      projects below any parent are exactly the list the calls so far describe - inserted at
      the clamped index, moved, removed - and no key is longer than 49 characters. */
  lemma {:induction false} RunKeepsOrder(sha: Bytes -> Digest, states: seq<Database>, calls: seq<Call>, parent: Option<Id>, n: nat)
    requires Runs.Run(sha, states, calls) && states[0] == EMPTY && AllComplete(states, calls) && NoRestoration(states, calls)
    requires n <= |calls| && (|calls| + 2) * 4 <= Pow(MAX_RANK_LENGTH)
    ensures Represents(ProjectLevel(states[n].projects, parent), ListOf(states, calls, parent, n), MAX_RANK_LENGTH + 1)
    ensures |ListOf(states, calls, parent, n)| <= n
    decreases n
  {
    hide Premise, Step, WalksComplete, Restores, Inv, ListAfter, Represents, ProjectLevel, Pow;
    if n == 0 {
      EmptyLevel(parent);
    } else {
      RunKeepsOrder(sha, states, calls, parent, n - 1);
      EmptyInv(sha);
      RunKeeps(sha, states, calls);
      AcyclicInv(states[n - 1], sha);
      var list := ListOf(states, calls, parent, n - 1);
      WidthsFit(|list|, MAX_RANK_LENGTH + 1);
      AnyStep(states[n - 1], sha, calls[n - 1], parent, list, MAX_RANK_LENGTH + 1);
      ListGrowsByOne(states[n - 1], calls[n - 1], parent, list);
    }
  }

  lemma EmptyLevel(parent: Option<Id>)
    ensures Represents(ProjectLevel(EMPTY.projects, parent), [], MAX_RANK_LENGTH + 1)
  {}

  lemma AcyclicInv(d: Database, sha: Bytes -> Digest)
    requires Inv(d, sha)
    ensures Acyclic(d.projects)
  {}

  // ----------------------------------------------------------- conversations

  /** What a call does to the plain list of the conversations of a project. A fork goes
      below its source and the forks of the same source that follow it. */
  function TalksAfter(d: Database, call: Call, project: Id, list: seq<Id>): seq<Id> {
    match call.op
    case OnConversation(CreateConversation(target, name, index, id, listing)) =>
      if CreateConversationVerdict(d, call.actor, target, name) == Done && target == project
      then Levels.InsertAt(list, Clamp(index, |list|), id) else list
    case OnConversation(MoveConversation(id, expected, target, index, listing)) =>
      if MoveConversationVerdict(d, call.actor, id, expected, target) != Done then list
      else
        var rest := if d.conversations[id].project == project then Without(list, id) else list;
        if target == project then Levels.InsertAt(rest, Clamp(index, |rest|), id) else rest
    case OnConversation(ForkConversation(id, listing, order, ids, target)) =>
      if ForkVerdict(d, call.actor, id) == Done && d.conversations[id].project == project
      then var slot := ForkSlot(d.conversations, listing, id, d.conversations[id].thread);
           Levels.InsertAt(list, Clamp(Some(slot), |list|), target)
      else list
    case OnConversation(DeleteConversation(id, revision, now)) =>
      if DeleteConversationVerdict(d, call.actor, id, revision) == Done && d.conversations[id].project == project then Without(list, id) else list
    case OnProject(DeleteProject(id, revision, now)) =>
      if DeleteProjectVerdict(d, call.actor, id, revision) == Done && project in DeletionBatch(d, id).projects then [] else list
    case _ => list
  }

  function TalksOf(states: seq<Database>, calls: seq<Call>, project: Id, n: nat): seq<Id>
    requires n <= |calls| <= |states|
  {
    if n == 0 then [] else TalksAfter(states[n - 1], calls[n - 1], project, TalksOf(states, calls, project, n - 1))
  }

  lemma PutElsewhere(c: Conversations, id: Id, row: Conversation, updates: seq<Entry>, project: Id)
    requires row.deletedAt == None && row.project != project && (id in c ==> c[id].project != project)
    requires forall i :: 0 <= i < |updates| ==> updates[i].id in ConversationLevel(c, row.project)
    ensures ConversationLevel(RekeyedIn(c, updates)[id := row], project) == ConversationLevel(c, project)
  {
    RelistedConversations(c, id, row, updates, project);
    assert id !in ConversationLevel(c, project);
  }

  lemma CreateTalkStep(d: Database, sha: Bytes -> Digest, call: Call, project: Id, list: seq<Id>, limit: nat)
    requires Premise(d, call.op) && call.op.OnConversation? && call.op.conversation.CreateConversation?
    requires Represents(ConversationLevel(d.conversations, project), list, limit) && Roomy(list, limit)
    ensures Represents(ConversationLevel(Step(d, sha, call.actor, call.op).conversations, project), TalksAfter(d, call, project, list), limit)
  {
    hide Represents, ConversationLevel, Levels.Lists, UniqueConversationName, Place, RekeyedIn;
    var op := call.op.conversation;
    if CreateConversationVerdict(d, call.actor, op.project, op.name) == Done {
      if op.project == project {
        CreateConversationInserts(d, project, op.name, op.index, op.id, op.listing);
        NewHere(d.conversations, op.id, project);
        StepRefines(ConversationLevel(d.conversations, project), list, Insert(op.id, op.index), op.listing, limit);
      } else {
        UpdatesInLevel(ConversationLevel(d.conversations, op.project), op.listing, op.id, op.index);
        var placement := Place(op.listing, op.index);
        var unique := UniqueConversationName(d.conversations, op.project, WantedName(op.name).value);
        PutElsewhere(d.conversations, op.id, NewConversation(op.project, unique, placement.key), placement.updates, project);
      }
    }
  }

  lemma NewHere(c: Conversations, id: Id, project: Id)
    requires id in c ==> c[id].project != project
    ensures id !in ConversationLevel(c, project)
  {}

  lemma MoveTalkStep(d: Database, sha: Bytes -> Digest, call: Call, project: Id, list: seq<Id>, limit: nat)
    requires Premise(d, call.op) && call.op.OnConversation? && call.op.conversation.MoveConversation?
    requires Represents(ConversationLevel(d.conversations, project), list, limit) && Roomy(list, limit)
    ensures Represents(ConversationLevel(Step(d, sha, call.actor, call.op).conversations, project), TalksAfter(d, call, project, list), limit)
  {
    hide Represents, ConversationLevel, MoveConversationEffect, Levels.Lists, Place, RekeyedIn;
    var op := call.op.conversation;
    if MoveConversationVerdict(d, call.actor, op.id, op.expected, op.project) == Done {
      var from := d.conversations[op.id].project;
      MoveConversationMoves(d, op.id, op.project, op.index, op.listing);
      TalkThere(d.conversations, op.id);
      if from == project == op.project {
        StepRefines(ConversationLevel(d.conversations, project), list, Levels.Op.Move(op.id, op.index), op.listing, limit);
      } else if op.project == project {
        NewHere(d.conversations, op.id, project);
        StepRefines(ConversationLevel(d.conversations, project), list, Insert(op.id, op.index), op.listing, limit);
      } else if from == project {
        RemovalRefines(ConversationLevel(d.conversations, project), list, op.id, limit);
      } else {
        UpdatesInLevel(ConversationLevel(d.conversations, op.project), op.listing, op.id, op.index);
        var row := MovedConversationRow(d, op.id, op.project, op.index, op.listing);
        PutElsewhere(d.conversations, op.id, row, Place(Except(op.listing, op.id), op.index).updates, project);
      }
    }
  }

  lemma TalkThere(c: Conversations, id: Id)
    requires LiveConversation(c, id)
    ensures id in ConversationLevel(c, c[id].project)
  {}

  lemma ForkTalkStep(d: Database, sha: Bytes -> Digest, call: Call, project: Id, list: seq<Id>, limit: nat)
    requires Premise(d, call.op) && call.op.OnConversation? && call.op.conversation.ForkConversation?
    requires Represents(ConversationLevel(d.conversations, project), list, limit) && Roomy(list, limit)
    ensures Represents(ConversationLevel(Step(d, sha, call.actor, call.op).conversations, project), TalksAfter(d, call, project, list), limit)
  {
    hide Represents, ConversationLevel, Levels.Lists, Perform, Place, RekeyedIn, ForkRow, ForkSlot, ForkedMessages, CopyAllLinks, NewIds;
    var op := call.op.conversation;
    if ForkVerdict(d, call.actor, op.id) == Done {
      TranscriptIsStored(d.messages, op.id, op.order);
      var row := d.conversations[op.id];
      var slot := ForkSlot(d.conversations, op.listing, op.id, row.thread);
      if row.project == project {
        ForkInserts(d, op.id, op.listing, op.order, op.ids, op.target);
        NewHere(d.conversations, op.target, project);
        StepRefines(ConversationLevel(d.conversations, project), list, Insert(op.target, Some(slot)), op.listing, limit);
      } else {
        UpdatesInLevel(ConversationLevel(d.conversations, row.project), op.listing, op.target, Some(slot));
        var placement := ForkPlacement(d.conversations, op.id, op.listing);
        ForkRowIs(d.conversations, op.id, placement.key);
        PutElsewhere(d.conversations, op.target, ForkRow(d.conversations, op.id, placement.key), placement.updates, project);
      }
    }
  }

  lemma TranscriptIsStored(m: Messages, id: Id, order: seq<Id>)
    requires Transcript(m, id, order)
    ensures Stored(m, order)
  {}

  lemma ForkRowIs(c: Conversations, source: Id, key: Key)
    requires source in c
    ensures var row := ForkRow(c, source, key); row.project == c[source].project && row.deletedAt == None && row.sortKey == key
  {}

  lemma MarkedLevel(c: Conversations, ids: set<Id>, stamp: Stamp, author: Id, project: Id)
    ensures ConversationLevel(MarkConversations(c, ids, Some(stamp), Some(author)), project) == ConversationLevel(c, project) - ids
  {}

  lemma DeleteTalkStep(d: Database, sha: Bytes -> Digest, call: Call, project: Id, list: seq<Id>, limit: nat)
    requires call.op.OnConversation? && call.op.conversation.DeleteConversation?
    requires Represents(ConversationLevel(d.conversations, project), list, limit) && Roomy(list, limit)
    ensures Represents(ConversationLevel(Step(d, sha, call.actor, call.op).conversations, project), TalksAfter(d, call, project, list), limit)
  {
    hide Represents, ConversationLevel, MarkConversations, MarkMessages;
    var op := call.op.conversation;
    if DeleteConversationVerdict(d, call.actor, op.id, op.revision) == Done {
      MarkedLevel(d.conversations, {op.id}, op.now, call.actor.id, project);
      if d.conversations[op.id].project == project {
        TalkThere(d.conversations, op.id);
        RemovalRefines(ConversationLevel(d.conversations, project), list, op.id, limit);
      } else {
        NewHere(d.conversations, op.id, project);
        assert ConversationLevel(d.conversations, project) - {op.id} == ConversationLevel(d.conversations, project);
      }
    }
  }

  lemma DeleteProjectTalks(d: Database, sha: Bytes -> Digest, call: Call, project: Id, list: seq<Id>, limit: nat)
    requires call.op.OnProject? && call.op.project.DeleteProject?
    requires Represents(ConversationLevel(d.conversations, project), list, limit)
    ensures Represents(ConversationLevel(Step(d, sha, call.actor, call.op).conversations, project), TalksAfter(d, call, project, list), limit)
  {
    hide Represents, Subtree, MarkConversations, MarkMessages, MarkProjects, ConversationLevel;
    var op := call.op.project;
    if DeleteProjectVerdict(d, call.actor, op.id, op.revision) == Done {
      var ids := DeletionBatch(d, op.id).projects;
      MarkedLevel(d.conversations, LiveIn(d.conversations, ids), op.now, call.actor.id, project);
      BatchTalks(d.conversations, ids, project);
      Emptied(limit);
    }
  }

  lemma BatchTalks(c: Conversations, ids: set<Id>, project: Id)
    ensures ConversationLevel(c, project) - LiveIn(c, ids) == if project in ids then map[] else ConversationLevel(c, project)
  {}

  lemma RowKeepsLevel(c: Conversations, id: Id, row: Conversation, project: Id)
    requires id in c && row.project == c[id].project && row.sortKey == c[id].sortKey && row.deletedAt == c[id].deletedAt
    ensures ConversationLevel(c[id := row], project) == ConversationLevel(c, project)
  {}

  lemma PurgeKeepsTalks(d: Database, cutoff: Stamp, project: Id)
    ensures ConversationLevel(PurgeEffect(d, cutoff).conversations, project) == ConversationLevel(d.conversations, project)
  {}

  lemma UpdateKeepsTalks(d: Database, id: Id, rename: Option<string>, project: Id)
    requires id in d.conversations && (rename.Some? ==> Clean(rename.value).Some?)
    ensures ConversationLevel(UpdateConversationEffect(d, id, rename).conversations, project) == ConversationLevel(d.conversations, project)
  {
    hide ConversationLevel;
    RowKeepsLevel(d.conversations, id, UpdateConversationEffect(d, id, rename).conversations[id], project);
  }

  lemma RunnerKeepsTalks(d: Database, id: Id, thread: Option<Id>, session: Option<Id>, project: Id)
    requires id in d.conversations
    ensures ConversationLevel(SetRunnerEffect(d, id, thread, session).conversations, project) == ConversationLevel(d.conversations, project)
  {
    hide ConversationLevel;
    RowKeepsLevel(d.conversations, id, SetRunnerEffect(d, id, thread, session).conversations[id], project);
  }

  lemma ResetKeepsTalks(d: Database, id: Id, now: Stamp, project: Id)
    requires id in d.conversations
    ensures ConversationLevel(ResetEffect(d, id, now).conversations, project) == ConversationLevel(d.conversations, project)
  {
    hide ConversationLevel, MarkMessages, LiveMessagesOf;
    RowKeepsLevel(d.conversations, id, ResetEffect(d, id, now).conversations[id], project);
  }

  lemma OtherTalkStep(d: Database, actor: Actor, op: ConversationOp, project: Id)
    requires !op.CreateConversation? && !op.MoveConversation? && !op.ForkConversation? && !op.DeleteConversation?
    requires op.RestoreConversation? ==> RestoreConversationVerdict(d, actor, op.id) != Done
    ensures ConversationLevel(ConversationStep(d, actor, op).conversations, project) == ConversationLevel(d.conversations, project)
  {
    hide ConversationLevel, MarkMessages, LiveMessagesOf, UpdateConversationVerdict, ConversationGate, RestoreConversationVerdict,
         RestoreConversationEffect, UpdateConversationEffect, SetRunnerEffect, ResetEffect;
    match op
    case UpdateConversation(id, expected, rename) =>
      if UpdateConversationVerdict(d, actor, id, expected, rename) == Done { UpdateKeepsTalks(d, id, rename, project); }
    case SetRunner(id, thread, session) =>
      if SetRunnerVerdict(d, actor, id, thread, session) == Done { RunnerKeepsTalks(d, id, thread, session, project); }
    case ResetConversation(id, now) =>
      if ConversationGate(d, actor, id) == Done { ResetKeepsTalks(d, id, now, project); }
    case _ =>
  }

  lemma ProjectStepTalks(d: Database, actor: Actor, op: ProjectOp)
    requires !op.DeleteProject? && (op.RestoreProject? ==> RestoreProjectVerdict(d, actor, op.id) != Done)
    ensures ProjectStep(d, actor, op).conversations == d.conversations
  {
    hide Place, Rekeyed;
  }

  lemma MessageStepTalks(d: Database, actor: Actor, op: MessageOp)
    ensures MessageStep(d, actor, op).conversations == d.conversations
  {
    hide LinkAll, IndexAfter, GrownAfter, NextSequenceNo;
  }

  lemma OtherTalks(d: Database, sha: Bytes -> Digest, call: Call, project: Id)
    requires !Restores(d, call) && (call.op.OnProject? ==> !call.op.project.DeleteProject?)
    requires call.op.OnConversation? ==>
               var op := call.op.conversation;
               !op.CreateConversation? && !op.MoveConversation? && !op.ForkConversation? && !op.DeleteConversation?
    ensures ConversationLevel(Step(d, sha, call.actor, call.op).conversations, project) == ConversationLevel(d.conversations, project)
  {
    hide ConversationLevel, ProjectStep, ConversationStep, MessageStep, FileStep, PurgeEffect;
    match call.op
    case OnProject(o) => ProjectStepTalks(d, call.actor, o);
    case OnConversation(o) => OtherTalkStep(d, call.actor, o, project);
    case OnMessage(o) => MessageStepTalks(d, call.actor, o);
    case OnFile(o) => FileStepProjects(d, sha, call.actor, o);
    case Purge(retention, dryRun, now) => PurgeKeepsTalks(d, now - retention * DAY_MS, project);
  }

  lemma AnyTalkStep(d: Database, sha: Bytes -> Digest, call: Call, project: Id, list: seq<Id>, limit: nat)
    requires Premise(d, call.op) && !Restores(d, call)
    requires Represents(ConversationLevel(d.conversations, project), list, limit) && Roomy(list, limit)
    ensures Represents(ConversationLevel(Step(d, sha, call.actor, call.op).conversations, project), TalksAfter(d, call, project, list), limit)
  {
    hide Represents, ConversationLevel, Step, Premise, Restores, Roomy;
    match call.op
    case OnConversation(CreateConversation(target, name, index, id, listing)) => CreateTalkStep(d, sha, call, project, list, limit);
    case OnConversation(MoveConversation(id, expected, target, index, listing)) => MoveTalkStep(d, sha, call, project, list, limit);
    case OnConversation(ForkConversation(id, listing, order, ids, target)) => ForkTalkStep(d, sha, call, project, list, limit);
    case OnConversation(DeleteConversation(id, revision, now)) => DeleteTalkStep(d, sha, call, project, list, limit);
    case OnProject(DeleteProject(id, revision, now)) => DeleteProjectTalks(d, sha, call, project, list, limit);
    case _ => OtherTalks(d, sha, call, project);
  }

  lemma TalksGrowByOne(d: Database, call: Call, project: Id, list: seq<Id>)
    ensures |TalksAfter(d, call, project, list)| <= |list| + 1
  {
    hide ForkSlot;
    match call.op
    case OnConversation(MoveConversation(id, expected, target, index, listing)) => WithoutLength(list, id);
    case OnConversation(DeleteConversation(id, revision, now)) => WithoutLength(list, id);
    case _ =>
  }

  /** The same for the conversations of a project, at any depth of the tree. */
  lemma {:induction false} RunKeepsTalkOrder(sha: Bytes -> Digest, states: seq<Database>, calls: seq<Call>, project: Id, n: nat)
    requires Runs.Run(sha, states, calls) && states[0] == EMPTY && NoRestoration(states, calls)
    requires n <= |calls| && (|calls| + 2) * 4 <= Pow(MAX_RANK_LENGTH)
    ensures Represents(ConversationLevel(states[n].conversations, project), TalksOf(states, calls, project, n), MAX_RANK_LENGTH + 1)
    ensures |TalksOf(states, calls, project, n)| <= n
    decreases n
  {
    hide Premise, Step, Restores, TalksAfter, Represents, ConversationLevel, Pow;
    if n == 0 {
      NoTalks(project);
    } else {
      RunKeepsTalkOrder(sha, states, calls, project, n - 1);
      var list := TalksOf(states, calls, project, n - 1);
      WidthsFit(|list|, MAX_RANK_LENGTH + 1);
      AnyTalkStep(states[n - 1], sha, calls[n - 1], project, list, MAX_RANK_LENGTH + 1);
      TalksGrowByOne(states[n - 1], calls[n - 1], project, list);
    }
  }

  lemma NoTalks(project: Id)
    ensures Represents(ConversationLevel(EMPTY.conversations, project), [], MAX_RANK_LENGTH + 1)
  {}
}
