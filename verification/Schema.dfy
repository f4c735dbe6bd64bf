/** One committed state of the service's database, and what holds of every one. */
module Schema {
  import opened Base
  import opened Ids
  import opened Naming
  import opened Tables
  import opened Files
  import opened Search

  datatype ProjectEntry = ProjectEntry(name: string, prompt: string)
  datatype ConversationEntry = ConversationEntry(project: Id, name: string)
  datatype MessageEntry = MessageEntry(conversation: Id, project: Id, content: string)

  type ProjectIndex = map<Id, ProjectEntry>
  type ConversationIndex = map<Id, ConversationEntry>
  type MessageIndex = map<Id, MessageEntry>

  /** The index tables have no key of their own, but every insert first deletes the id, so
      each is a map. `grown` is a history variable: the messages `append_delta` lengthened
      since they were last indexed. */
  datatype Database = Database(
    projects: Projects, conversations: Conversations, messages: Messages, grants: Grants,
    projectIndex: ProjectIndex, conversationIndex: ConversationIndex, messageIndex: MessageIndex,
    grown: set<Id>, files: Files)

  /** The process-wide database handle every service shares. */
  class Handle {
    var tables: Database

    constructor (initial: Database)
      ensures tables == initial
    {
      tables := initial;
    }
  }

  // -------------------------------------------------------------- references

  ghost predicate ProjectsLinked(p: Projects) {
    forall id {:trigger p[id].parent} :: id in p && p[id].parent.Some? ==> p[id].parent.value in p
  }

  ghost predicate ConversationsLinked(p: Projects, c: Conversations) {
    (forall id {:trigger c[id].project} :: id in c ==> c[id].project in p)
    && (forall id {:trigger c[id].forkedFrom} :: id in c && c[id].forkedFrom.Some? ==> c[id].forkedFrom.value in c)
  }

  ghost predicate MessagesLinked(c: Conversations, m: Messages) {
    (forall id {:trigger m[id].conversation} :: id in m ==> m[id].conversation in c)
    && (forall id {:trigger m[id].parentMessage} :: id in m && m[id].parentMessage.Some? ==> m[id].parentMessage.value in m)
  }

  ghost predicate GrantsLinked(p: Projects, g: Grants) { forall project: Id, user: Id :: (project, user) in g ==> project in p }

  ghost predicate FilesLinked(m: Messages, f: Files) {
    (forall message: Id, a: Id :: (message, a) in f.links ==> message in m)
    && (forall u :: u in f.uploads && f.uploads[u].target.Some? ==> f.uploads[u].target.value in m)
  }

  // ------------------------------------------------------- deletion stamps

  /** Below a deleted row everything is deleted, and no later than it. */
  predicate NotLater(child: Option<Stamp>, parent: Option<Stamp>) {
    parent.Some? ==> child.Some? && child.value <= parent.value
  }

  ghost predicate ProjectStamps(p: Projects) {
    forall id {:trigger p[id].parent} :: id in p && p[id].parent.Some? && p[id].parent.value in p ==>
      NotLater(p[id].deletedAt, p[p[id].parent.value].deletedAt)
  }

  ghost predicate ConversationStamps(p: Projects, c: Conversations) {
    forall id {:trigger c[id].project} :: id in c && c[id].project in p ==> NotLater(c[id].deletedAt, p[c[id].project].deletedAt)
  }

  ghost predicate MessageStamps(c: Conversations, m: Messages) {
    forall id {:trigger m[id].conversation} :: id in m && m[id].conversation in c ==> NotLater(m[id].deletedAt, c[m[id].conversation].deletedAt)
  }

  /** The clock reads later than every stamp written so far: it never runs backwards and
      two deletions never share a reading. */
  ghost predicate ClockPast(d: Database, now: Stamp) {
    (forall id :: id in d.projects && d.projects[id].deletedAt.Some? ==> d.projects[id].deletedAt.value < now)
    && (forall id :: id in d.conversations && d.conversations[id].deletedAt.Some? ==> d.conversations[id].deletedAt.value < now)
    && (forall id :: id in d.messages && d.messages[id].deletedAt.Some? ==> d.messages[id].deletedAt.value < now)
  }

  // ------------------------------------------------------------------ names

  function StampAbove(p: Projects, parent: Option<Id>): Option<Stamp> {
    if parent.Some? && parent.value in p then p[parent.value].deletedAt else None
  }

  /** Siblings that share their parent's deletion stamp have different names. Under a live
      parent that says live siblings differ; under a deleted one it says that the batch
      deleted together with it can come back. */
  ghost predicate ProjectNames(p: Projects) {
    forall a, b {:trigger SameLevel(p, a, b)} :: a in p && b in p && a != b && SameLevel(p, a, b) ==> Fold(p[a].name) != Fold(p[b].name)
  }

  predicate SameLevel(p: Projects, a: Id, b: Id)
    requires a in p && b in p
  {
    p[a].parent == p[b].parent && p[a].deletedAt == p[b].deletedAt == StampAbove(p, p[a].parent)
  }

  ghost predicate ConversationNames(p: Projects, c: Conversations) {
    forall a, b {:trigger TogetherIn(p, c, a, b)} :: a in c && b in c && a != b && TogetherIn(p, c, a, b) ==> Fold(c[a].name) != Fold(c[b].name)
  }

  predicate TogetherIn(p: Projects, c: Conversations, a: Id, b: Id)
    requires a in c && b in c
  {
    c[a].project == c[b].project && c[a].deletedAt == c[b].deletedAt == StampAbove(p, Some(c[a].project))
  }

  // ------------------------------------------------------------------ index

  function ProjectEntries(p: Projects): ProjectIndex {
    map id | id in p && p[id].deletedAt == None :: ProjectEntry(Segment(p[id].name), Segment(p[id].prompt))
  }

  function ConversationEntries(c: Conversations): ConversationIndex {
    map id | id in c && c[id].deletedAt == None :: ConversationEntry(c[id].project, Segment(c[id].name))
  }

  /** `INDEXED_ROLES`: everything but tool output. */
  predicate Indexed(role: Role) { role != ToolRole }

  /** What the index says about one message: an entry belongs to a live message and names
      its conversation and that conversation's current project; a live message of an
      indexed role, not lengthened since, has an entry with its current text unless it is
      blank. */
  ghost predicate Mirrors(c: Conversations, m: Messages, mi: MessageIndex, grown: set<Id>, id: Id) {
    (id in mi ==>
       LiveMessage(m, id) && m[id].conversation in c
       && mi[id].conversation == m[id].conversation && mi[id].project == c[m[id].conversation].project)
    && (LiveMessage(m, id) && Indexed(m[id].role) && id !in grown ==>
          (id in mi <==> !Blank(m[id].content)) && (id in mi ==> mi[id].content == Segment(m[id].content)))
  }

  ghost predicate MessagesMirrored(c: Conversations, m: Messages, mi: MessageIndex, grown: set<Id>) {
    forall id :: Mirrors(c, m, mi, grown, id)
  }

  ghost predicate Mirrored(d: Database) {
    d.projectIndex == ProjectEntries(d.projects)
    && d.conversationIndex == ConversationEntries(d.conversations)
    && MessagesMirrored(d.conversations, d.messages, d.messageIndex, d.grown)
  }

  // -------------------------------------------------------------- sequences

  /** Sequence numbers and external event ids are unique per conversation. */
  ghost predicate SequencesUnique(m: Messages) {
    forall a, b {:trigger m[a].sequenceNo, m[b].sequenceNo} :: a in m && b in m && a != b && m[a].conversation == m[b].conversation ==>
      m[a].sequenceNo != m[b].sequenceNo && !(m[a].event.Some? && m[a].event == m[b].event)
  }

  /** Sort keys are well-formed, names pass the length check. */
  ghost predicate ColumnsOk(p: Projects, c: Conversations) {
    (forall id :: id in p ==> WellFormed(p[id].sortKey) && NameFits(p[id].name))
    && (forall id :: id in c ==> WellFormed(c[id].sortKey) && NameFits(c[id].name))
  }

  /** The rules of the project tree and the conversations in it. */
  ghost predicate TreeRules(p: Projects, c: Conversations) {
    ProjectsLinked(p) && ConversationsLinked(p, c) && Acyclic(p)
    && ProjectStamps(p) && ConversationStamps(p, c) && ProjectNames(p) && ConversationNames(p, c) && ColumnsOk(p, c)
  }

  ghost predicate MessageRules(c: Conversations, m: Messages) {
    MessagesLinked(c, m) && MessageStamps(c, m) && SequencesUnique(m)
  }

  ghost predicate FileRules(m: Messages, f: Files, sha: Bytes -> Digest) {
    FilesLinked(m, f) && OrdersDiffer(f.links) && FilesOk(f, sha)
  }

  /** What every operation keeps. */
  ghost predicate Inv(d: Database, sha: Bytes -> Digest) {
    TreeRules(d.projects, d.conversations) && MessageRules(d.conversations, d.messages)
    && GrantsLinked(d.projects, d.grants) && FileRules(d.messages, d.files, sha) && Mirrored(d)
  }


  const EMPTY: Database :=
    Database(map[], map[], map[], map[], map[], map[], map[], {}, Files(map[], map[], map[], map[], map[]))

  lemma EmptyInv(sha: Bytes -> Digest)
    ensures Inv(EMPTY, sha)
  {
    forall id ensures Mirrors(map[], map[], map[], {}, id) {}
  }
}
