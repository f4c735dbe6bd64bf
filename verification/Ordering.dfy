/** What the project and conversation jobs do to the order of a level: exactly the list
  operation that `place` refines. */
module Ordering {
  import opened Base
  import opened Ids
  import opened Levels
  import opened Tables
  import opened Search
  import opened Schema
  import opened ProjectJobs
  import opened ConversationJobs
  import opened ForkJob

  // ------------------------------------------------------------ renumbering

  lemma {:induction false} RekeyedLevel(p: Projects, updates: seq<Entry>, parent: Option<Id>, other: Option<Id>)
    requires forall i :: 0 <= i < |updates| ==> updates[i].id in ProjectLevel(p, parent)
    ensures ProjectLevel(Rekeyed(p, updates), parent) == Applied(ProjectLevel(p, parent), updates)
    ensures other != parent ==> ProjectLevel(Rekeyed(p, updates), other) == ProjectLevel(p, other)
    decreases |updates|
  {
    if updates != [] {
      var n := |updates| - 1;
      RekeyedLevel(p, updates[..n], parent, other);
      RekeyedOnlyKeys(p, updates[..n]);
      OneKeyLevel(Rekeyed(p, updates[..n]), updates[n].id, updates[n].key, parent, other);
    }
  }

  lemma OneKeyLevel(p: Projects, id: Id, key: Key, parent: Option<Id>, other: Option<Id>)
    requires id in ProjectLevel(p, parent)
    ensures ProjectLevel(SetKey(p, id, key), parent) == ProjectLevel(p, parent)[id := key]
    ensures other != parent ==> ProjectLevel(SetKey(p, id, key), other) == ProjectLevel(p, other)
  {}

  lemma {:induction false} RekeyedInLevel(c: Conversations, updates: seq<Entry>, project: Id, other: Id)
    requires forall i :: 0 <= i < |updates| ==> updates[i].id in ConversationLevel(c, project)
    ensures ConversationLevel(RekeyedIn(c, updates), project) == Applied(ConversationLevel(c, project), updates)
    ensures other != project ==> ConversationLevel(RekeyedIn(c, updates), other) == ConversationLevel(c, other)
    decreases |updates|
  {
    if updates != [] {
      var n := |updates| - 1;
      RekeyedInLevel(c, updates[..n], project, other);
      RekeyedInOnlyKeys(c, updates[..n]);
      OneKeyConversations(RekeyedIn(c, updates[..n]), updates[n].id, updates[n].key, project, other);
    }
  }

  lemma OneKeyConversations(c: Conversations, id: Id, key: Key, project: Id, other: Id)
    requires id in ConversationLevel(c, project)
    ensures ConversationLevel(SetConversationKey(c, id, key), project) == ConversationLevel(c, project)[id := key]
    ensures other != project ==> ConversationLevel(SetConversationKey(c, id, key), other) == ConversationLevel(c, other)
  {}

  lemma {:induction false} ExceptNothing(listing: seq<Entry>, node: Id)
    requires forall i :: 0 <= i < |listing| ==> listing[i].id != node
    ensures Except(listing, node) == listing
    decreases |listing|
  {
    if listing != [] { ExceptNothing(listing[1..], node); }
  }

  // ---------------------------------------------------------------- projects

  /** A created project is inserted into its level; no other level changes. */
  lemma CreateProjectInserts(d: Database, actor: Actor, parent: Option<Id>, name: string, index: Option<int>, prompt: string, id: Id,
                             listing: seq<Entry>, other: Option<Id>)
    requires id !in d.projects && Levels.Lists(ProjectLevel(d.projects, parent), listing)
    ensures var e := CreateProjectEffect(d, actor, parent, name, index, prompt, id, listing);
            ProjectLevel(e.projects, parent) == Perform(ProjectLevel(d.projects, parent), Insert(id, index), listing)
            && (other != parent ==> ProjectLevel(e.projects, other) == ProjectLevel(d.projects, other))
  {
    hide Levels.Lists, Place, ProjectLevel, Applied, Rekeyed, Segment;
    var placement := Place(listing, index);
    UpdatesInLevel(ProjectLevel(d.projects, parent), listing, id, index);
    RekeyedLevel(d.projects, placement.updates, parent, other);
    RekeyedOnlyKeys(d.projects, placement.updates);
    PutInLevel(Rekeyed(d.projects, placement.updates), id, Project(parent, name, placement.key, prompt, 1, None, None), other);
    NotInLevel(d.projects, id, other);
  }

  lemma NotInLevel(p: Projects, id: Id, parent: Option<Id>)
    requires id !in p
    ensures ProjectLevel(p, parent) - {id} == ProjectLevel(p, parent)
  {}

  lemma PutInLevel(p: Projects, id: Id, row: Project, other: Option<Id>)
    requires row.deletedAt == None
    ensures ProjectLevel(p[id := row], row.parent) == ProjectLevel(p, row.parent)[id := row.sortKey]
    ensures other != row.parent ==> ProjectLevel(p[id := row], other) == ProjectLevel(p, other) - {id}
  {}

  lemma RelistedLevels(p: Projects, id: Id, row: Project, updates: seq<Entry>, other: Option<Id>)
    requires row.deletedAt == None && forall i :: 0 <= i < |updates| ==> updates[i].id in ProjectLevel(p, row.parent)
    ensures var q := Rekeyed(p, updates)[id := row];
            ProjectLevel(q, row.parent) == Applied(ProjectLevel(p, row.parent), updates)[id := row.sortKey]
            && (other != row.parent ==> ProjectLevel(q, other) == ProjectLevel(p, other) - {id})
  {
    hide ProjectLevel, Applied, Rekeyed;
    RekeyedLevel(p, updates, row.parent, other);
    PutInLevel(Rekeyed(p, updates), id, row, other);
  }

  lemma MovedRow(d: Database, id: Id, parent: Option<Id>, index: Option<int>, listing: seq<Entry>) returns (row: Project)
    requires LiveProject(d.projects, id)
    ensures var placement := Place(Except(listing, id), index);
            MoveProjectEffect(d, id, parent, index, listing).projects == Rekeyed(d.projects, placement.updates)[id := row]
            && row.parent == parent && row.sortKey == placement.key && row.deletedAt == None
  {
    hide Place;
    RekeyedOnlyKeys(d.projects, Place(Except(listing, id), index).updates);
    row := MoveProjectEffect(d, id, parent, index, listing).projects[id];
  }

  /** A moved project moves within its level, or leaves its level and is inserted into the
      other. */
  lemma MoveProjectMoves(d: Database, id: Id, parent: Option<Id>, index: Option<int>, listing: seq<Entry>)
    requires LiveProject(d.projects, id) && Levels.Lists(ProjectLevel(d.projects, parent), listing)
    ensures var e, from := MoveProjectEffect(d, id, parent, index, listing), d.projects[id].parent;
            if from == parent
            then ProjectLevel(e.projects, parent) == Perform(ProjectLevel(d.projects, parent), Op.Move(id, index), listing)
            else ProjectLevel(e.projects, parent) == Perform(ProjectLevel(d.projects, parent), Insert(id, index), listing)
                 && ProjectLevel(e.projects, from) == Perform(ProjectLevel(d.projects, from), Remove(id), [])
  {
    hide Place, ProjectLevel, Applied, Levels.Lists, Rekeyed, MoveProjectEffect;
    var placement, from := Place(Except(listing, id), index), d.projects[id].parent;
    UpdatesInLevel(ProjectLevel(d.projects, parent), listing, id, index);
    var row := MovedRow(d, id, parent, index, listing);
    RelistedLevels(d.projects, id, row, placement.updates, from);
    if from != parent { NotListed(d.projects, id, parent, listing); }
  }

  lemma NotListed(p: Projects, id: Id, parent: Option<Id>, listing: seq<Entry>)
    requires id in p && p[id].parent != parent && Levels.Lists(ProjectLevel(p, parent), listing)
    ensures Except(listing, id) == listing
  {
    ExceptNothing(listing, id);
  }

  /** A deleted project leaves its level. */
  lemma DeleteProjectRemoves(d: Database, id: Id, now: Stamp, author: Id)
    requires Acyclic(d.projects) && LiveProject(d.projects, id)
    ensures var from := d.projects[id].parent;
            ProjectLevel(DeleteProjectEffect(d, id, now, author).projects, from) == Perform(ProjectLevel(d.projects, from), Remove(id), [])
  {
    hide Subtree, ProjectLevel;
    var keep, from := LiveProjects(d.projects), d.projects[id].parent;
    SubtreeRoot(d.projects, keep, id);
    if from.Some? { ParentOutside(d.projects, keep, id); }
    forall x | x in Subtree(d.projects, keep, id) && x != id ensures x in d.projects && d.projects[x].parent != from {
      SubtreeParent(d.projects, keep, id, x);
    }
    OneMarked(d.projects, Subtree(d.projects, keep, id), id, now, author);
  }

  lemma OneMarked(p: Projects, ids: set<Id>, id: Id, now: Stamp, author: Id)
    requires id in p && id in ids && forall x :: x in ids && x != id ==> x in p && p[x].parent != p[id].parent
    ensures ProjectLevel(MarkProjects(p, ids, Some(now), Some(author)), p[id].parent) == ProjectLevel(p, p[id].parent) - {id}
  {}

  // ----------------------------------------------------------- conversations

  lemma PutConversationInLevel(c: Conversations, id: Id, row: Conversation, other: Id)
    requires row.deletedAt == None
    ensures ConversationLevel(c[id := row], row.project) == ConversationLevel(c, row.project)[id := row.sortKey]
    ensures other != row.project ==> ConversationLevel(c[id := row], other) == ConversationLevel(c, other) - {id}
  {}

  lemma CreateConversationInserts(d: Database, project: Id, name: string, index: Option<int>, id: Id, listing: seq<Entry>)
    requires WantedName(name).Some? && Levels.Lists(ConversationLevel(d.conversations, project), listing)
    ensures ConversationLevel(CreateConversationEffect(d, project, name, index, id, listing).conversations, project)
         == Perform(ConversationLevel(d.conversations, project), Insert(id, index), listing)
  {
    hide Levels.Lists, Place, UniqueConversationName;
    var placement := Place(listing, index);
    UpdatesInLevel(ConversationLevel(d.conversations, project), listing, id, index);
    RekeyedInLevel(d.conversations, placement.updates, project, project);
    var unique := UniqueConversationName(d.conversations, project, WantedName(name).value);
    PutConversationInLevel(RekeyedIn(d.conversations, placement.updates), id, NewConversation(project, unique, placement.key), project);
  }

  lemma RelistedConversations(c: Conversations, id: Id, row: Conversation, updates: seq<Entry>, other: Id)
    requires row.deletedAt == None && forall i :: 0 <= i < |updates| ==> updates[i].id in ConversationLevel(c, row.project)
    ensures var e := RekeyedIn(c, updates)[id := row];
            ConversationLevel(e, row.project) == Applied(ConversationLevel(c, row.project), updates)[id := row.sortKey]
            && (other != row.project ==> ConversationLevel(e, other) == ConversationLevel(c, other) - {id})
  {
    hide ConversationLevel, Applied, RekeyedIn;
    RekeyedInLevel(c, updates, row.project, other);
    PutConversationInLevel(RekeyedIn(c, updates), id, row, other);
  }

  lemma MovedConversationRow(d: Database, id: Id, project: Id, index: Option<int>, listing: seq<Entry>) returns (row: Conversation)
    requires LiveConversation(d.conversations, id)
    ensures var placement := Place(Except(listing, id), index);
            MoveConversationEffect(d, id, project, index, listing).conversations == RekeyedIn(d.conversations, placement.updates)[id := row]
            && row.project == project && row.sortKey == placement.key && row.deletedAt == None
  {
    hide Place;
    RekeyedInOnlyKeys(d.conversations, Place(Except(listing, id), index).updates);
    row := MoveConversationEffect(d, id, project, index, listing).conversations[id];
  }

  lemma MoveConversationMoves(d: Database, id: Id, project: Id, index: Option<int>, listing: seq<Entry>)
    requires LiveConversation(d.conversations, id) && Levels.Lists(ConversationLevel(d.conversations, project), listing)
    ensures var e, from := MoveConversationEffect(d, id, project, index, listing), d.conversations[id].project;
            if from == project
            then ConversationLevel(e.conversations, project) == Perform(ConversationLevel(d.conversations, project), Op.Move(id, index), listing)
            else ConversationLevel(e.conversations, project) == Perform(ConversationLevel(d.conversations, project), Insert(id, index), listing)
                 && ConversationLevel(e.conversations, from) == Perform(ConversationLevel(d.conversations, from), Remove(id), [])
  {
    hide Place, ConversationLevel, Applied, Levels.Lists, RekeyedIn, MoveConversationEffect;
    var placement, from := Place(Except(listing, id), index), d.conversations[id].project;
    UpdatesInLevel(ConversationLevel(d.conversations, project), listing, id, index);
    var row := MovedConversationRow(d, id, project, index, listing);
    RelistedConversations(d.conversations, id, row, placement.updates, from);
    if from != project { ConversationNotListed(d.conversations, id, project, listing); }
  }

  lemma ConversationNotListed(c: Conversations, id: Id, project: Id, listing: seq<Entry>)
    requires id in c && c[id].project != project && Levels.Lists(ConversationLevel(c, project), listing)
    ensures Except(listing, id) == listing
  {
    ExceptNothing(listing, id);
  }

  /** A fork is inserted just below its source and the forks that already follow it. */
  lemma ForkInserts(d: Database, source: Id, listing: seq<Entry>, order: seq<Id>, ids: seq<Id>, target: Id)
    requires LiveConversation(d.conversations, source) && Stored(d.messages, order) && |ids| == |order| + 1
    requires Levels.Lists(ConversationLevel(d.conversations, d.conversations[source].project), listing)
    ensures var project, slot := d.conversations[source].project, ForkSlot(d.conversations, listing, source, d.conversations[source].thread);
            ConversationLevel(ForkEffect(d, source, listing, order, ids, target).conversations, project)
            == Perform(ConversationLevel(d.conversations, project), Insert(target, Some(slot)), listing)
    ensures var slot := ForkSlot(d.conversations, listing, source, d.conversations[source].thread);
            var at := IndexOf(listing, source);
            at < |listing| && at < slot <= |listing|
            && (forall j :: at < j < slot ==> SameSource(d.conversations, listing[j].id, source, d.conversations[source].thread))
            && (slot < |listing| ==> !SameSource(d.conversations, listing[slot].id, source, d.conversations[source].thread))
  {
    hide Place;
    var project, thread := d.conversations[source].project, d.conversations[source].thread;
    var slot := ForkSlot(d.conversations, listing, source, thread);
    var placement := ForkPlacement(d.conversations, source, listing);
    assert Listed(listing, source);
    UpdatesInLevel(ConversationLevel(d.conversations, project), listing, target, Some(slot));
    RekeyedInLevel(d.conversations, placement.updates, project, project);
    PutConversationInLevel(RekeyedIn(d.conversations, placement.updates), target, ForkRow(d.conversations, source, placement.key), project);
  }


  // ------------------------------------------------------------------- lists

  /** So the sorted level is the plain list after the plain list operation: for a project
      created at an index, insertion at that index, clamped. */
  lemma CreatedAtIndex(d: Database, actor: Actor, parent: Option<Id>, name: string, index: Option<int>, prompt: string, id: Id,
                       listing: seq<Entry>, list: seq<Id>, limit: nat)
    requires id !in d.projects && Levels.Lists(ProjectLevel(d.projects, parent), listing)
    requires Represents(ProjectLevel(d.projects, parent), list, limit)
    requires limit > MAX_RANK_LENGTH && forall n :: 0 <= n <= |list| + 1 ==> Width(n) <= limit
    ensures Represents(ProjectLevel(CreateProjectEffect(d, actor, parent, name, index, prompt, id, listing).projects, parent),
                       Levels.InsertAt(list, Clamp(index, |list|), id), limit)
  {
    CreateProjectInserts(d, actor, parent, name, index, prompt, id, listing, parent);
    StepRefines(ProjectLevel(d.projects, parent), list, Insert(id, index), listing, limit);
  }

  /** For a project moved within its level, removal and insertion at that index. */
  lemma MovedToIndex(d: Database, id: Id, parent: Option<Id>, index: Option<int>, listing: seq<Entry>, list: seq<Id>, limit: nat)
    requires LiveProject(d.projects, id) && Levels.Lists(ProjectLevel(d.projects, parent), listing)
    requires Represents(ProjectLevel(d.projects, parent), list, limit)
    requires limit > MAX_RANK_LENGTH && forall n :: 0 <= n <= |list| + 1 ==> Width(n) <= limit
    ensures var rest := Without(list, id);
            Represents(ProjectLevel(MoveProjectEffect(d, id, parent, index, listing).projects, parent),
                       if d.projects[id].parent == parent then Levels.InsertAt(rest, Clamp(index, |rest|), id)
                       else Levels.InsertAt(list, Clamp(index, |list|), id), limit)
  {
    MoveProjectMoves(d, id, parent, index, listing);
    if d.projects[id].parent == parent {
      StepRefines(ProjectLevel(d.projects, parent), list, Op.Move(id, index), listing, limit);
    } else {
      StepRefines(ProjectLevel(d.projects, parent), list, Insert(id, index), listing, limit);
    }
  }
}
