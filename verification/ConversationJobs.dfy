/** The conversation jobs of `tree_agent/server/services/tree.py`. */
module ConversationJobs {
  import opened Base
  import opened Ids
  import opened Levels
  import opened Naming
  import opened Tables
  import opened Access
  import opened Files
  import opened Search
  import opened Schema
  import opened Indexing
  import opened ProjectJobs

  /** `AUTO_CONVERSATION_NAME` */
  const AUTO_NAME: string := "\U{65B0}\U{5C0D}\U{8A71}"

  // ------------------------------------------------------------ sort updates

  function SetConversationKey(c: Conversations, id: Id, key: Key): Conversations {
    if id in c then c[id := c[id].(sortKey := key)] else c
  }

  function RekeyedIn(c: Conversations, updates: seq<Entry>): Conversations {
    if updates == [] then c
    else SetConversationKey(RekeyedIn(c, updates[..|updates| - 1]), updates[|updates| - 1].id, updates[|updates| - 1].key)
  }

  ghost predicate SameButConversationKeys(c: Conversations, e: Conversations) {
    e.Keys == c.Keys && forall id :: id in c ==> e[id] == c[id].(sortKey := e[id].sortKey)
  }

  lemma {:induction false} RekeyedInOnlyKeys(c: Conversations, updates: seq<Entry>)
    ensures SameButConversationKeys(c, RekeyedIn(c, updates))
    ensures KeysWellFormed(updates) && (forall id :: id in c ==> WellFormed(c[id].sortKey)) ==>
              forall id :: id in c ==> WellFormed(RekeyedIn(c, updates)[id].sortKey)
    decreases |updates|
  {
    if updates != [] { RekeyedInOnlyKeys(c, updates[..|updates| - 1]); }
  }

  /** `_apply_sort_updates` on the conversation table. */
  method ApplyConversationUpdates(db: Handle, updates: seq<Entry>)
    modifies db
    ensures db.tables == old(db.tables).(conversations := RekeyedIn(old(db.tables.conversations), updates))
  {
    for i := 0 to |updates|
      invariant db.tables == old(db.tables).(conversations := RekeyedIn(old(db.tables.conversations), updates[..i]))
    {
      assert updates[..i + 1][..i] == updates[..i];
      db.tables := db.tables.(conversations := SetConversationKey(db.tables.conversations, updates[i].id, updates[i].key));
    }
    assert updates[..|updates|] == updates;
  }

  lemma RekeyedInRules(p: Projects, c: Conversations, e: Conversations)
    requires SameButConversationKeys(c, e)
    ensures ConversationsLinked(p, c) ==> ConversationsLinked(p, e)
    ensures ConversationStamps(p, c) ==> ConversationStamps(p, e)
    ensures ConversationEntries(e) == ConversationEntries(c)
  {}

  lemma RekeyedInNames(p: Projects, c: Conversations, e: Conversations)
    requires SameButConversationKeys(c, e) && ConversationNames(p, c)
    ensures ConversationNames(p, e)
  {
    forall a, b | a in e && b in e && a != b && TogetherIn(p, e, a, b) ensures Fold(e[a].name) != Fold(e[b].name) {
      assert TogetherIn(p, c, a, b);
    }
  }

  lemma RekeyedInKeeps(p: Projects, c: Conversations, e: Conversations)
    requires TreeRules(p, c) && SameButConversationKeys(c, e) && forall id :: id in e ==> WellFormed(e[id].sortKey)
    ensures TreeRules(p, e) && ConversationEntries(e) == ConversationEntries(c)
  {
    RekeyedInRules(p, c, e);
    RekeyedInNames(p, c, e);
  }

  lemma RekeyedInMessages(c: Conversations, e: Conversations, m: Messages, mi: MessageIndex, grown: set<Id>)
    requires SameButConversationKeys(c, e) && MessageRules(c, m) && MessagesMirrored(c, m, mi, grown)
    ensures MessageRules(e, m) && MessagesMirrored(e, m, mi, grown)
  {
    forall id ensures Mirrors(e, m, mi, grown, id) { assert Mirrors(c, m, mi, grown, id); }
  }


  lemma ConversationListingWellFormed(p: Projects, c: Conversations, project: Id, listing: seq<Entry>, id: Id, index: Option<int>)
    requires ColumnsOk(p, c) && Lists(ConversationLevel(c, project), listing)
    ensures WellFormed(Place(listing, index).key) && KeysWellFormed(Place(listing, index).updates)
    ensures WellFormed(Place(Except(listing, id), index).key) && KeysWellFormed(Place(Except(listing, id), index).updates)
  {
    PlacementWellFormed(listing, index);
    ExceptMembers(listing, id);
    ExceptSorted(listing, id);
    var rest := Except(listing, id);
    forall j | 0 <= j < |rest| ensures WellFormed(rest[j].key) {
      assert rest[j] in rest && rest[j] in listing;
    }
    PlacementWellFormed(rest, index);
  }

  /** A renumbered level changes nothing the invariants look at. */
  lemma RekeyConversationsKeeps(d: Database, sha: Bytes -> Digest, updates: seq<Entry>)
    requires Inv(d, sha) && KeysWellFormed(updates)
    ensures Inv(d.(conversations := RekeyedIn(d.conversations, updates)), sha)
  {
    var e := RekeyedIn(d.conversations, updates);
    RekeyedInOnlyKeys(d.conversations, updates);
    RekeyedInKeeps(d.projects, d.conversations, e);
    RekeyedInMessages(d.conversations, e, d.messages, d.messageIndex, d.grown);
  }

  // ------------------------------------------------------------------ rows

  /** A live row, new, changed or restored, in a live project where its name is free. */
  ghost predicate MayPut(p: Projects, c: Conversations, id: Id, row: Conversation) {
    LiveProject(p, row.project) && row.deletedAt == None && WellFormed(row.sortKey) && NameFits(row.name)
    && (row.forkedFrom.Some? ==> row.forkedFrom.value in c)
    && ((LiveConversation(c, id) && row.project == c[id].project && Fold(row.name) == Fold(c[id].name))
        || !ConversationNameTaken(c, row.project, row.name, Some(id)))
  }


  lemma PutNames(p: Projects, c: Conversations, id: Id, row: Conversation)
    requires ConversationNames(p, c) && MayPut(p, c, id, row)
    ensures ConversationNames(p, c[id := row])
  {
    var e := c[id := row];
    forall a, b | a in e && b in e && a != b && TogetherIn(p, e, a, b) ensures Fold(e[a].name) != Fold(e[b].name) {
      assert a != id && b != id ==> TogetherIn(p, c, a, b);
      assert LiveConversation(c, id) && row.project == c[id].project && (a == id || b == id) ==> TogetherIn(p, c, a, b);
    }
  }

  lemma PutEntries(c: Conversations, id: Id, row: Conversation)
    requires row.deletedAt == None
    ensures ConversationEntries(c[id := row]) == ConversationEntries(c)[id := ConversationEntry(row.project, Segment(row.name))]
  {}

  lemma PutConversation(p: Projects, c: Conversations, id: Id, row: Conversation)
    requires TreeRules(p, c) && MayPut(p, c, id, row)
    ensures TreeRules(p, c[id := row])
  {
    hide WellFormed, NameFits, Acyclic, ProjectsLinked, ProjectStamps, ProjectNames, ConversationNames, ConversationNameTaken, Fold;
    PutNames(p, c, id, row);
  }

  /** Messages notice neither a new conversation nor a change that keeps the project. */
  lemma PutMessages(c: Conversations, m: Messages, mi: MessageIndex, grown: set<Id>, id: Id, row: Conversation)
    requires MessageRules(c, m) && MessagesMirrored(c, m, mi, grown)
    requires row.deletedAt == None && (id in c ==> c[id].deletedAt == None && row.project == c[id].project)
    ensures MessageRules(c[id := row], m) && MessagesMirrored(c[id := row], m, mi, grown)
  {
    var e := c[id := row];
    forall x ensures Mirrors(e, m, mi, grown, x) { assert Mirrors(c, m, mi, grown, x); }
  }

  function AddConversation(d: Database, id: Id, row: Conversation): Database {
    d.(conversations := d.conversations[id := row],
       conversationIndex := d.conversationIndex[id := ConversationEntry(row.project, Segment(row.name))])
  }

  lemma AddConversationKeeps(d: Database, sha: Bytes -> Digest, id: Id, row: Conversation)
    requires Inv(d, sha) && MayPut(d.projects, d.conversations, id, row)
    requires id in d.conversations ==> d.conversations[id].deletedAt == None && row.project == d.conversations[id].project
    ensures Inv(AddConversation(d, id, row), sha)
  {
    PutConversation(d.projects, d.conversations, id, row);
    PutEntries(d.conversations, id, row);
    PutMessages(d.conversations, d.messages, d.messageIndex, d.grown, id, row);
    var e := AddConversation(d, id, row);
  }

  // ------------------------------------------------------------------ create

  /** The folded names of a project's live conversations. */
  function TakenNames(c: Conversations, project: Id): set<string> {
    set id | id in c && c[id].project == project && c[id].deletedAt == None :: Fold(c[id].name)
  }

  lemma TakenMeansInSet(c: Conversations, project: Id, name: string)
    ensures ConversationNameTaken(c, project, name, None) <==> Fold(name) in TakenNames(c, project)
  {}

  /** `_unique_conversation_name` */
  function UniqueConversationName(c: Conversations, project: Id, base: string): (r: string)
    ensures !ConversationNameTaken(c, project, r, None)
  {
    var taken := TakenNames(c, project);
    if Fold(base) !in taken then base
    else
      TakenMeansInSet(c, project, Numbered(base, FreeNumber(true, taken, base, 2)));
      Numbered(base, FreeNumber(true, taken, base, 2))
  }

  /** The length check refuses no placeholder as long as the project has fewer than 10^196
      conversations. */
  lemma PlaceholderFits(c: Conversations, project: Id)
    requires |TakenNames(c, project)| + 2 < Ten(196)
    ensures NameFits(UniqueConversationName(c, project, AUTO_NAME))
  {
    var taken, name := TakenNames(c, project), UniqueConversationName(c, project, AUTO_NAME);
    if Fold(AUTO_NAME) in taken {
      var n := FreeNumber(true, taken, AUTO_NAME, 2);
      DecimalShort(n, 196);
      assert IsDigit(name[|name| - 1]);
    }
    assert TrimSpaces(name) == name;
  }

  /** The name the caller typed, or the placeholder. */
  function WantedName(name: string): Option<string> { if name == "" then Some(AUTO_NAME) else Clean(name) }

  function CreateConversationVerdict(d: Database, actor: Actor, project: Id, name: string): (r: Outcome)
    ensures r == Done ==> LiveProject(d.projects, project) && WantedName(name).Some?
    ensures r == Done && name != "" ==> !ConversationNameTaken(d.conversations, project, WantedName(name).value, None)
  {
    var gate := RequireWrite(d.projects, d.grants, actor, project);
    if gate.Failed? then gate
    else
      if WantedName(name) == None then Failed(Validation)
      else if name != "" && ConversationNameTaken(d.conversations, project, WantedName(name).value, None) then Failed(NameConflict)
      else if !NameFits(UniqueConversationName(d.conversations, project, WantedName(name).value)) then Failed(Integrity)
      else Done
  }

  function NewConversation(project: Id, name: string, key: Key): Conversation {
    Conversation(project, name, key, None, None, None, None, 1, None, None)
  }

  function CreateConversationEffect(d: Database, project: Id, name: string, index: Option<int>, id: Id, listing: seq<Entry>): Database
    requires WantedName(name).Some?
  {
    var placement := Place(listing, index);
    AddConversation(d.(conversations := RekeyedIn(d.conversations, placement.updates)), id,
                    NewConversation(project, UniqueConversationName(d.conversations, project, WantedName(name).value), placement.key))
  }

  lemma CreateConversationKeeps(d: Database, sha: Bytes -> Digest, actor: Actor, project: Id, name: string, index: Option<int>,
                                id: Id, listing: seq<Entry>)
    requires Inv(d, sha) && id !in d.conversations && Lists(ConversationLevel(d.conversations, project), listing)
    requires CreateConversationVerdict(d, actor, project, name) == Done
    ensures Inv(CreateConversationEffect(d, project, name, index, id, listing), sha)
  {
    var placement := Place(listing, index);
    ConversationListingWellFormed(d.projects, d.conversations, project, listing, id, index);
    RekeyConversationsKeeps(d, sha, placement.updates);
    RekeyedInOnlyKeys(d.conversations, placement.updates);
    var unique := UniqueConversationName(d.conversations, project, WantedName(name).value);
    AddConversationKeeps(d.(conversations := RekeyedIn(d.conversations, placement.updates)), sha, id,
                         NewConversation(project, unique, placement.key));
  }

  /** The insert and the index row of a new conversation. */
  method InsertConversation(db: Handle, id: Id, row: Conversation)
    modifies db
    ensures db.tables == AddConversation(old(db.tables), id, row)
  {
    db.tables := db.tables.(conversations := db.tables.conversations[id := row]);
    IndexConversation(db, id, row.project, row.name);
  }

  /** `create_conversation`: an explicit name that is taken fails, the placeholder is numbered. */
  method CreateConversation(db: Handle, actor: Actor, project: Id, name: string, index: Option<int>, id: Id, listing: seq<Entry>)
    returns (r: Outcome)
    modifies db
    ensures r == CreateConversationVerdict(old(db.tables), actor, project, name)
    ensures db.tables == if r == Done then CreateConversationEffect(old(db.tables), project, name, index, id, listing) else old(db.tables)
  {
    r := CheckWrite(db, actor, project);
    if r.Failed? {
      return;
    }
    var wanted := WantedName(name);
    if wanted == None {
      return Failed(Validation);
    }
    var unique := wanted.value;
    TakenMeansInSet(db.tables.conversations, project, unique);
    if ConversationNameTaken(db.tables.conversations, project, unique, None) {
      if name != "" {
        return Failed(NameConflict);
      }
      unique := UniqueName(true, TakenNames(db.tables.conversations, project), wanted.value);
    }
    var begin, placement := db.tables, Place(listing, index);
    ApplyConversationUpdates(db, placement.updates);
    if !NameFits(unique) {
      db.tables := begin; // ROLLBACK
      return Failed(Integrity);
    }
    InsertConversation(db, id, NewConversation(project, unique, placement.key));
  }

  // ------------------------------------------------------------------ update

  /** `_conversation_or_404`, then `require_write` on its project. */
  function ConversationGate(d: Database, actor: Actor, id: Id): (r: Outcome)
    ensures r == Done ==> LiveConversation(d.conversations, id) && LiveProject(d.projects, d.conversations[id].project)
  {
    if !LiveConversation(d.conversations, id) then Failed(NotFound)
    else RequireWrite(d.projects, d.grants, actor, d.conversations[id].project)
  }

  method CheckConversation(db: Handle, actor: Actor, id: Id) returns (r: Outcome)
    ensures r == ConversationGate(db.tables, actor, id)
  {
    if !LiveConversation(db.tables.conversations, id) {
      return Failed(NotFound);
    }
    r := CheckWrite(db, actor, db.tables.conversations[id].project);
  }

  function UpdateConversationVerdict(d: Database, actor: Actor, id: Id, revision: Option<nat>, name: Option<string>): (r: Outcome)
    ensures r == Done ==> LiveConversation(d.conversations, id) && (name.Some? ==> Clean(name.value).Some?)
    ensures r == Done && name.Some? && Fold(Clean(name.value).value) != Fold(d.conversations[id].name) ==>
              !ConversationNameTaken(d.conversations, d.conversations[id].project, Clean(name.value).value, Some(id))
  {
    if name.Some? && Clean(name.value) == None then Failed(Validation)
    else if ConversationGate(d, actor, id).Failed? then ConversationGate(d, actor, id)
    else
      var row := d.conversations[id];
      if name.Some? && Fold(Clean(name.value).value) != Fold(row.name)
         && ConversationNameTaken(d.conversations, row.project, Clean(name.value).value, Some(id)) then Failed(NameConflict)
      else if revision.Some? && revision.value != row.revision then Failed(RevisionConflict)
      else Done
  }

  function UpdateConversationEffect(d: Database, id: Id, name: Option<string>): Database
    requires id in d.conversations && (name.Some? ==> Clean(name.value).Some?)
  {
    var row := d.conversations[id].(revision := d.conversations[id].revision + 1);
    match name
    case None => d.(conversations := d.conversations[id := row])
    case Some(n) => AddConversation(d, id, row.(name := Clean(n).value))
  }

  lemma UpdateConversationKeeps(d: Database, sha: Bytes -> Digest, actor: Actor, id: Id, revision: Option<nat>, name: Option<string>)
    requires Inv(d, sha) && UpdateConversationVerdict(d, actor, id, revision, name) == Done
    ensures Inv(UpdateConversationEffect(d, id, name), sha)
  {
    var row := UpdateConversationEffect(d, id, name).conversations[id];
    AddConversationKeeps(d, sha, id, row);
    if name == None { UnchangedEntry(d, id, row); }
  }


  /** Without a new name the index row is already right. */
  lemma UnchangedEntry(d: Database, id: Id, row: Conversation)
    requires Mirrored(d) && LiveConversation(d.conversations, id)
    requires row.project == d.conversations[id].project && row.name == d.conversations[id].name
    ensures AddConversation(d, id, row) == d.(conversations := d.conversations[id := row])
  {}

  /** `update_conversation`: the index is touched only when the name is. */
  method UpdateConversation(db: Handle, actor: Actor, id: Id, revision: Option<nat>, name: Option<string>) returns (r: Outcome)
    modifies db
    ensures r == UpdateConversationVerdict(old(db.tables), actor, id, revision, name)
    ensures db.tables == if r == Done then UpdateConversationEffect(old(db.tables), id, name) else old(db.tables)
  {
    var clean := if name.Some? then Clean(name.value) else None;
    if name.Some? && clean == None {
      return Failed(Validation);
    }
    r := CheckConversation(db, actor, id);
    if r.Failed? {
      return;
    }
    var row := db.tables.conversations[id];
    if clean.Some? && Fold(clean.value) != Fold(row.name) {
      if ConversationNameTaken(db.tables.conversations, row.project, clean.value, Some(id)) {
        return Failed(NameConflict);
      }
    }
    if revision.Some? && revision.value != row.revision {
      return Failed(RevisionConflict);
    }
    var updated := row.(name := if clean.Some? then clean.value else row.name, revision := row.revision + 1);
    db.tables := db.tables.(conversations := db.tables.conversations[id := updated]);
    if clean.Some? {
      IndexConversation(db, id, updated.project, updated.name);
    }
  }

  function SetRunnerVerdict(d: Database, actor: Actor, id: Id, thread: Option<Id>, session: Option<Id>): (r: Outcome)
    ensures r == Done ==> LiveConversation(d.conversations, id)
  {
    if thread == None && session == None then Failed(Validation) else ConversationGate(d, actor, id)
  }

  /** `set_runner_state`, for the Codex thread and the Claude session: outside the revision
      check, though the revision moves. */
  function SetRunnerEffect(d: Database, id: Id, thread: Option<Id>, session: Option<Id>): Database
    requires id in d.conversations
  {
    var row := d.conversations[id];
    d.(conversations := d.conversations[id := row.(thread := if thread.Some? then thread else row.thread,
                                                   session := if session.Some? then session else row.session,
                                                   revision := row.revision + 1)])
  }

  lemma SetRunnerKeeps(d: Database, sha: Bytes -> Digest, id: Id, thread: Option<Id>, session: Option<Id>)
    requires Inv(d, sha) && LiveConversation(d.conversations, id)
    ensures Inv(SetRunnerEffect(d, id, thread, session), sha)
  {
    var row := SetRunnerEffect(d, id, thread, session).conversations[id];
    AddConversationKeeps(d, sha, id, row);
    UnchangedEntry(d, id, row);
  }

  method SetRunner(db: Handle, actor: Actor, id: Id, thread: Option<Id>, session: Option<Id>) returns (r: Outcome)
    modifies db
    ensures r == SetRunnerVerdict(old(db.tables), actor, id, thread, session)
    ensures db.tables == if r == Done then SetRunnerEffect(old(db.tables), id, thread, session) else old(db.tables)
  {
    if thread == None && session == None {
      return Failed(Validation);
    }
    r := CheckConversation(db, actor, id);
    if r.Failed? {
      return;
    }
    var row := db.tables.conversations[id];
    if thread.Some? {
      row := row.(thread := thread);
    }
    if session.Some? {
      row := row.(session := session);
    }
    db.tables := db.tables.(conversations := db.tables.conversations[id := row.(revision := row.revision + 1)]);
  }

  // -------------------------------------------------------------------- move

  function MoveConversationGate(d: Database, actor: Actor, id: Id, project: Id): (r: Outcome)
    ensures r == Done ==> LiveConversation(d.conversations, id) && LiveProject(d.projects, project)
    ensures r == Done ==> !ConversationNameTaken(d.conversations, project, d.conversations[id].name, Some(id))
  {
    if ConversationGate(d, actor, id).Failed? then ConversationGate(d, actor, id)
    else if RequireWrite(d.projects, d.grants, actor, project).Failed? then RequireWrite(d.projects, d.grants, actor, project)
    else if ConversationNameTaken(d.conversations, project, d.conversations[id].name, Some(id)) then Failed(NameConflict)
    else
      Done
  }

  function MoveConversationVerdict(d: Database, actor: Actor, id: Id, revision: Option<nat>, project: Id): (r: Outcome)
    ensures r == Done ==> MoveConversationGate(d, actor, id, project) == Done
  {
    var gate := MoveConversationGate(d, actor, id, project);
    if gate.Failed? then gate
    else if revision.Some? && revision.value != d.conversations[id].revision then Failed(RevisionConflict)
    else Done
  }

  /** The UPDATE of `move_conversation`. */
  function Relocated(d: Database, id: Id, project: Id, key: Key): Database {
    if id in d.conversations
    then d.(conversations := d.conversations[id :=
              d.conversations[id].(project := project, sortKey := key, revision := d.conversations[id].revision + 1)])
    else d
  }

  function MoveConversationEffect(d: Database, id: Id, project: Id, index: Option<int>, listing: seq<Entry>): Database {
    var placement := Place(Except(listing, id), index);
    Reindexed(Relocated(d.(conversations := RekeyedIn(d.conversations, placement.updates)), id, project, placement.key), {id})
  }

  lemma RelocateMessages(c: Conversations, m: Messages, mi: MessageIndex, grown: set<Id>, id: Id, row: Conversation)
    requires MessageRules(c, m) && MessagesMirrored(c, m, mi, grown) && LiveConversation(c, id) && row.deletedAt == None
    ensures var e := c[id := row];
            var ids := LiveMessagesOf(m, {id});
            MessageRules(e, m) && MessagesMirrored(e, m, ReindexedMessages(e, m, mi, ids), grown - ids)
  {
    var e := c[id := row];
    forall x ensures Mirrors(e, m, mi, grown, x) || (x in m && m[x].conversation in {id}) {
      assert Mirrors(c, m, mi, grown, x);
    }
    forall x | x in m && m[x].conversation in {id} && x in mi ensures LiveMessage(m, x) {
      assert Mirrors(c, m, mi, grown, x);
    }
    ReindexMirrors(e, m, mi, grown, {id});
  }

  /** A moved conversation and every message under it are re-stamped with the new project. */
  lemma RelocateKeeps(d: Database, sha: Bytes -> Digest, id: Id, project: Id, key: Key)
    requires Inv(d, sha) && LiveConversation(d.conversations, id) && LiveProject(d.projects, project) && WellFormed(key)
    requires !ConversationNameTaken(d.conversations, project, d.conversations[id].name, Some(id))
    ensures Inv(Reindexed(Relocated(d, id, project, key), {id}), sha)
  {
    var e := Relocated(d, id, project, key).conversations;
    PutConversation(d.projects, d.conversations, id, e[id]);
    PutEntries(d.conversations, id, e[id]);
    OneConversation(e, d.conversationIndex, id);
    RelocateMessages(d.conversations, d.messages, d.messageIndex, d.grown, id, e[id]);
  }

  lemma MoveConversationKeeps(d: Database, sha: Bytes -> Digest, actor: Actor, id: Id, revision: Option<nat>, project: Id,
                              index: Option<int>, listing: seq<Entry>)
    requires Inv(d, sha) && MoveConversationVerdict(d, actor, id, revision, project) == Done
    requires Lists(ConversationLevel(d.conversations, project), listing)
    ensures Inv(MoveConversationEffect(d, id, project, index, listing), sha)
  {
    var placement := Place(Except(listing, id), index);
    ConversationListingWellFormed(d.projects, d.conversations, project, listing, id, index);
    RekeyConversationsKeeps(d, sha, placement.updates);
    RekeyedInOnlyKeys(d.conversations, placement.updates);
    RelocateKeeps(d.(conversations := RekeyedIn(d.conversations, placement.updates)), sha, id, project, placement.key);
  }

  method CheckConversationMove(db: Handle, actor: Actor, id: Id, project: Id) returns (r: Outcome)
    ensures r == MoveConversationGate(db.tables, actor, id, project)
  {
    r := CheckConversation(db, actor, id);
    if r.Failed? {
      return;
    }
    r := CheckWrite(db, actor, project);
    if r.Failed? {
      return;
    }
    if ConversationNameTaken(db.tables.conversations, project, db.tables.conversations[id].name, Some(id)) {
      return Failed(NameConflict);
    }
  }

  method Relocate(db: Handle, id: Id, project: Id, key: Key)
    requires id in db.tables.conversations
    modifies db
    ensures db.tables == Relocated(old(db.tables), id, project, key)
  {
    var row := db.tables.conversations[id];
    db.tables := db.tables.(conversations := db.tables.conversations[id := row.(project := project, sortKey := key, revision := row.revision + 1)]);
  }

  /** `move_conversation` */
  method MoveConversation(db: Handle, actor: Actor, id: Id, revision: Option<nat>, project: Id, index: Option<int>, listing: seq<Entry>)
    returns (r: Outcome)
    modifies db
    ensures r == MoveConversationVerdict(old(db.tables), actor, id, revision, project)
    ensures db.tables == if r == Done then MoveConversationEffect(old(db.tables), id, project, index, listing) else old(db.tables)
  {
    var begin := db.tables;
    r := CheckConversationMove(db, actor, id, project);
    if r.Failed? {
      return;
    }
    var placement := Place(Except(listing, id), index);
    ApplyConversationUpdates(db, placement.updates);
    RekeyedInOnlyKeys(begin.conversations, placement.updates);
    if revision.Some? && revision.value != db.tables.conversations[id].revision {
      db.tables := begin; // ROLLBACK
      return Failed(RevisionConflict);
    }
    Relocate(db, id, project, placement.key);
    ReindexConversation(db, id);
  }

  // ------------------------------------------------------------------ delete

  function DeleteConversationVerdict(d: Database, actor: Actor, id: Id, revision: nat): (r: Outcome)
    ensures r == Done ==> LiveConversation(d.conversations, id)
  {
    var gate := ConversationGate(d, actor, id);
    if gate.Failed? then gate
    else if d.conversations[id].revision != revision then Failed(RevisionConflict)
    else Done
  }

  /** `soft_delete` and the two index drops. */
  function DeleteConversationEffect(d: Database, id: Id, now: Stamp, author: Id): Database {
    var ids := LiveMessagesOf(d.messages, {id});
    d.(conversations := MarkConversations(d.conversations, {id}, Some(now), Some(author)),
       messages := MarkMessages(d.messages, ids, Some(now)),
       conversationIndex := d.conversationIndex - {id}, messageIndex := d.messageIndex - ids)
  }

  lemma DropConversationNames(p: Projects, c: Conversations, id: Id, now: Stamp, author: Option<Id>)
    requires ConversationNames(p, c) && LiveConversation(c, id) && LiveProject(p, c[id].project)
    ensures ConversationNames(p, MarkConversations(c, {id}, Some(now), author))
  {
    var e := MarkConversations(c, {id}, Some(now), author);
    forall a, b | a in e && b in e && a != b && TogetherIn(p, e, a, b) ensures Fold(e[a].name) != Fold(e[b].name) {
      assert TogetherIn(p, c, a, b);
    }
  }


  lemma DropConversationColumns(p: Projects, c: Conversations, id: Id, now: Stamp, author: Option<Id>)
    requires ColumnsOk(p, c) && ConversationsLinked(p, c) && ConversationStamps(p, c) && LiveConversation(c, id)
    ensures var e := MarkConversations(c, {id}, Some(now), author);
            ColumnsOk(p, e) && ConversationsLinked(p, e) && ConversationStamps(p, e) && LiveProject(p, c[id].project)
  {
    hide WellFormed, NameFits;
  }

  lemma DropConversationRules(p: Projects, c: Conversations, id: Id, now: Stamp, author: Option<Id>)
    requires TreeRules(p, c) && LiveConversation(c, id)
    ensures TreeRules(p, MarkConversations(c, {id}, Some(now), author))
  {
    hide WellFormed, NameFits, Acyclic, ProjectsLinked, ProjectStamps, ProjectNames, ConversationNames, ConversationStamps, ConversationsLinked,
         ColumnsOk, MarkConversations;
    DropConversationColumns(p, c, id, now, author);
    DropConversationNames(p, c, id, now, author);
  }


  lemma DeleteConversationParts(d: Database, id: Id, now: Stamp, author: Id)
    requires MessageRules(d.conversations, d.messages) && Mirrored(d) && ClockPast(d, now) && LiveConversation(d.conversations, id)
    ensures var e := DeleteConversationEffect(d, id, now, author);
            e.conversationIndex == ConversationEntries(e.conversations) && MessageRules(e.conversations, e.messages)
            && MessagesMirrored(e.conversations, e.messages, e.messageIndex, d.grown)
  {
    DeleteMessageRules(d.conversations, d.messages, d.messageIndex, d.grown, {id}, now, Some(author));
  }

  lemma DeleteConversationKeeps(d: Database, sha: Bytes -> Digest, id: Id, now: Stamp, author: Id)
    requires Inv(d, sha) && ClockPast(d, now) && LiveConversation(d.conversations, id)
    ensures Inv(DeleteConversationEffect(d, id, now, author), sha)
  {
    var e := DeleteConversationEffect(d, id, now, author);
    DropConversationRules(d.projects, d.conversations, id, now, Some(author));
    DeleteConversationParts(d, id, now, author);
  }

  /** `delete_conversation` */
  method DeleteConversation(db: Handle, actor: Actor, id: Id, revision: nat, now: Stamp) returns (r: Outcome)
    modifies db
    ensures r == DeleteConversationVerdict(old(db.tables), actor, id, revision)
    ensures db.tables == if r == Done then DeleteConversationEffect(old(db.tables), id, now, actor.id) else old(db.tables)
  {
    r := CheckConversation(db, actor, id);
    if r.Failed? {
      return;
    }
    if db.tables.conversations[id].revision != revision {
      return Failed(RevisionConflict);
    }
    var messages := LiveMessagesOf(db.tables.messages, {id});
    db.tables := db.tables.(conversations := MarkConversations(db.tables.conversations, {id}, Some(now), Some(actor.id)));
    db.tables := db.tables.(messages := MarkMessages(db.tables.messages, messages, Some(now)));
    DropConversations(db, [id]);
    assert IdSet([id]) == {id};
    var order := Listing(messages);
    DropMessages(db, order);
  }

  // ----------------------------------------------------------------- restore

  function RestoreConversationVerdict(d: Database, actor: Actor, id: Id): (r: Outcome)
    ensures r == Done ==> id in d.conversations && d.conversations[id].deletedAt.Some? && LiveProject(d.projects, d.conversations[id].project)
    ensures r == Done ==> !ConversationNameTaken(d.conversations, d.conversations[id].project, d.conversations[id].name, Some(id))
  {
    if id !in d.conversations || d.conversations[id].deletedAt == None then Failed(NotFound)
    else
      var row := d.conversations[id];
      if !LiveProject(d.projects, row.project) then Failed(Conflict)
      else if RequireWrite(d.projects, d.grants, actor, row.project).Failed? then RequireWrite(d.projects, d.grants, actor, row.project)
      else if ConversationNameTaken(d.conversations, row.project, row.name, Some(id)) then Failed(NameConflict)
      else Done
  }

  function RestoreConversationEffect(d: Database, id: Id): Database
    requires id in d.conversations
  {
    Reindexed(d.(conversations := MarkConversations(d.conversations, {id}, None, None),
                 messages := MarkMessages(d.messages, StampedMessages(d.messages, {id}, d.conversations[id].deletedAt), None)), {id})
  }

  lemma RestoreConversationRules(p: Projects, c: Conversations, id: Id)
    requires TreeRules(p, c) && id in c && LiveProject(p, c[id].project)
    requires !ConversationNameTaken(c, c[id].project, c[id].name, Some(id))
    ensures TreeRules(p, MarkConversations(c, {id}, None, None))
  {
    hide WellFormed, NameFits, Acyclic, ProjectsLinked, ProjectStamps, ProjectNames, ConversationNames, Fold;
    var row := c[id].(deletedAt := None, deletedBy := None, revision := c[id].revision + 1);
    assert MarkConversations(c, {id}, None, None) == c[id := row];
    PutConversation(p, c, id, row);
  }

  lemma RestoreConversationEntries(c: Conversations, id: Id)
    requires id in c
    ensures var e := MarkConversations(c, {id}, None, None);
            ReindexedConversations(e, ConversationEntries(c), {id}) == ConversationEntries(e)
  {}

  lemma RestoreConversationKeeps(d: Database, sha: Bytes -> Digest, actor: Actor, id: Id)
    requires Inv(d, sha) && RestoreConversationVerdict(d, actor, id) == Done
    ensures Inv(RestoreConversationEffect(d, id), sha)
  {
    var e, stamp := RestoreConversationEffect(d, id), d.conversations[id].deletedAt;
    RestoreConversationRules(d.projects, d.conversations, id);
    RestoreConversationEntries(d.conversations, id);
    RestoreMessageRows(d.conversations, d.messages, {id}, stamp.value);
    RestoreMessagesMirrored(d.conversations, d.messages, d.messageIndex, d.grown, {id}, stamp.value);
  }

  /** `restore_conversation` */
  method RestoreConversation(db: Handle, actor: Actor, id: Id) returns (r: Outcome)
    modifies db
    ensures r == RestoreConversationVerdict(old(db.tables), actor, id)
    ensures db.tables == if r == Done then RestoreConversationEffect(old(db.tables), id) else old(db.tables)
  {
    if id !in db.tables.conversations || db.tables.conversations[id].deletedAt == None {
      return Failed(NotFound);
    }
    var row := db.tables.conversations[id];
    if !LiveProject(db.tables.projects, row.project) {
      return Failed(Conflict);
    }
    r := CheckWrite(db, actor, row.project);
    if r.Failed? {
      return;
    }
    if ConversationNameTaken(db.tables.conversations, row.project, row.name, Some(id)) {
      return Failed(NameConflict);
    }
    var messages := StampedMessages(db.tables.messages, {id}, row.deletedAt);
    db.tables := db.tables.(conversations := MarkConversations(db.tables.conversations, {id}, None, None));
    db.tables := db.tables.(messages := MarkMessages(db.tables.messages, messages, None));
    ReindexConversation(db, id);
  }

  // ------------------------------------------------------------------- reset

  /** Every live message is deleted, the sessions and the fork origin are forgotten. */
  function ResetEffect(d: Database, id: Id, now: Stamp): Database
    requires id in d.conversations
  {
    var ids := LiveMessagesOf(d.messages, {id});
    var row := d.conversations[id];
    d.(messages := MarkMessages(d.messages, ids, Some(now)), messageIndex := d.messageIndex - ids,
       conversations := d.conversations[id := row.(thread := None, session := None, forkedFrom := None, forkedSession := None, revision := row.revision + 1)])
  }

  /** Deleting some live messages of live conversations. */
  lemma DropMessagesRules(c: Conversations, m: Messages, mi: MessageIndex, grown: set<Id>, ids: set<Id>, now: Stamp)
    requires MessageRules(c, m) && MessagesMirrored(c, m, mi, grown)
    requires forall x :: x in ids ==> LiveMessage(m, x)
    ensures var n := MarkMessages(m, ids, Some(now));
            MessageRules(c, n) && MessagesMirrored(c, n, mi - ids, grown)
  {
    var n := MarkMessages(m, ids, Some(now));
    MarkedSequences(m, ids, Some(now));
    forall id ensures Mirrors(c, n, mi - ids, grown, id) { assert Mirrors(c, m, mi, grown, id); }
  }

  lemma RowMayBePut(p: Projects, c: Conversations, id: Id, row: Conversation)
    requires TreeRules(p, c) && LiveConversation(c, id) && row.deletedAt == None && row.project == c[id].project
    requires row.name == c[id].name && row.sortKey == c[id].sortKey && (row.forkedFrom.Some? ==> row.forkedFrom == c[id].forkedFrom)
    ensures MayPut(p, c, id, row)
  {
    hide WellFormed, NameFits, Acyclic, ProjectNames, ConversationNames;
  }

  lemma DropMessagesKeeps(d: Database, sha: Bytes -> Digest, ids: set<Id>, now: Stamp)
    requires Inv(d, sha) && forall x :: x in ids ==> LiveMessage(d.messages, x)
    ensures Inv(d.(messages := MarkMessages(d.messages, ids, Some(now)), messageIndex := d.messageIndex - ids), sha)
  {
    hide TreeRules, GrantsLinked, FilesOk, OrdersDiffer, MessagesMirrored;
    DropMessagesRules(d.conversations, d.messages, d.messageIndex, d.grown, ids, now);
  }

  lemma ResetKeeps(d: Database, sha: Bytes -> Digest, id: Id, now: Stamp)
    requires Inv(d, sha) && LiveConversation(d.conversations, id)
    ensures Inv(ResetEffect(d, id, now), sha)
  {
    var ids, row := LiveMessagesOf(d.messages, {id}), ResetEffect(d, id, now).conversations[id];
    assert TreeRules(d.projects, d.conversations) && Mirrored(d);
    hide Inv, TreeRules, Mirrored, MarkMessages, MayPut;
    RowMayBePut(d.projects, d.conversations, id, row);
    UnchangedEntry(d, id, row);
    AddConversationKeeps(d, sha, id, row);
    DropMessagesKeeps(d.(conversations := d.conversations[id := row]), sha, ids, now);
  }

  /** The soft-delete loop of `reset_conversation`. */
  method SoftDeleteMessages(db: Handle, order: seq<Id>, now: Stamp)
    requires forall i :: 0 <= i < |order| ==> LiveMessage(db.tables.messages, order[i])
    modifies db
    ensures db.tables == old(db.tables).(messages := MarkMessages(old(db.tables.messages), IdSet(order), Some(now)))
  {
    ghost var m := db.tables.messages;
    IdSetBounds(order);
    assert MarkMessages(m, {}, Some(now)) == m;
    for i := 0 to |order|
      invariant db.tables == old(db.tables).(messages := MarkMessages(m, IdSet(order[..i]), Some(now)))
    {
      IdSetGrows(order, i);
      var row := db.tables.messages[order[i]];
      if row.deletedAt == None {
        db.tables := db.tables.(messages := db.tables.messages[order[i] := row.(deletedAt := Some(now))]);
      }
      assert db.tables.messages == MarkMessages(m, IdSet(order[..i + 1]), Some(now));
    }
  }

  /** `reset_conversation` */
  method ResetConversation(db: Handle, actor: Actor, id: Id, now: Stamp) returns (r: Outcome)
    modifies db
    ensures r == ConversationGate(old(db.tables), actor, id)
    ensures db.tables == if r == Done then ResetEffect(old(db.tables), id, now) else old(db.tables)
  {
    r := CheckConversation(db, actor, id);
    if r.Failed? {
      return;
    }
    var order := Listing(LiveMessagesOf(db.tables.messages, {id}));
    assert forall i :: 0 <= i < |order| ==> order[i] in IdSet(order);
    SoftDeleteMessages(db, order, now);
    DropMessages(db, order);
    var row := db.tables.conversations[id];
    db.tables := db.tables.(conversations := db.tables.conversations[id :=
      row.(thread := None, session := None, forkedFrom := None, forkedSession := None, revision := row.revision + 1)]);
  }
}
