/** The project jobs of `tree_agent/server/services/tree.py`, with the statements of
  `tree_agent/server/repositories/projects.py` they run.

  Every job has a verdict (the first check that fails, in the source's order) and an effect
  on the tables; a job that fails midway is rolled back by the writer queue. */
module ProjectJobs {
  import opened Base
  import opened Ids
  import opened Levels
  import opened Naming
  import opened Tables
  import opened Access
  import opened Files
  import opened Search
  import opened Schema
  import opened Indexing

  function TrimLeft(s: string): (r: string)
    ensures r != [] ==> !IsSpace(r[0])
    decreases |s|
  {
    if s == [] || !IsSpace(s[0]) then s else TrimLeft(s[1..])
  }

  /** `_clean_name`. What it accepts passes the length check of the schema. */
  function Clean(name: string): (r: Option<string>)
    ensures r.Some? ==> NameFits(r.value)
  {
    var s := TrimRight(TrimLeft(name));
    if 1 <= |s| <= NAME_MAX then Some(s) else None
  }

  /** Writing below a project, or at the top level when there is none. */
  function RequireWriteBelow(d: Database, actor: Actor, parent: Option<Id>): Outcome {
    match parent
    case None => if actor.role == Admin then Done else Failed(PermissionDenied)
    case Some(up) => RequireWrite(d.projects, d.grants, actor, up)
  }


  /** `require_write`, through the climbing loop. */
  method CheckWrite(db: Handle, actor: Actor, id: Id) returns (r: Outcome)
    ensures r == RequireWrite(db.tables.projects, db.tables.grants, actor, id)
  {
    var permission := FindPermission(db.tables.projects, db.tables.grants, actor, id);
    match permission
    case None => r := Failed(NotFound);
    case Some(Viewer) => r := Failed(PermissionDenied);
    case Some(_) => r := Done;
  }

  method CheckWriteBelow(db: Handle, actor: Actor, parent: Option<Id>) returns (r: Outcome)
    ensures r == RequireWriteBelow(db.tables, actor, parent)
  {
    match parent
    case None => r := if actor.role == Admin then Done else Failed(PermissionDenied);
    case Some(up) => r := CheckWrite(db, actor, up);
  }

  // ------------------------------------------------------------ sort updates

  function SetKey(p: Projects, id: Id, key: Key): Projects {
    if id in p then p[id := p[id].(sortKey := key)] else p
  }

  function Rekeyed(p: Projects, updates: seq<Entry>): Projects {
    if updates == [] then p
    else SetKey(Rekeyed(p, updates[..|updates| - 1]), updates[|updates| - 1].id, updates[|updates| - 1].key)
  }

  ghost predicate SameButKeys(p: Projects, q: Projects) {
    q.Keys == p.Keys && forall id :: id in p ==> q[id] == p[id].(sortKey := q[id].sortKey)
  }

  lemma {:induction false} RekeyedOnlyKeys(p: Projects, updates: seq<Entry>)
    ensures SameButKeys(p, Rekeyed(p, updates))
    ensures KeysWellFormed(updates) && (forall id :: id in p ==> WellFormed(p[id].sortKey)) ==>
              forall id :: id in p ==> WellFormed(Rekeyed(p, updates)[id].sortKey)
    decreases |updates|
  {
    if updates != [] { RekeyedOnlyKeys(p, updates[..|updates| - 1]); }
  }

  /** `_apply_sort_updates` */
  method ApplySortUpdates(db: Handle, updates: seq<Entry>)
    modifies db
    ensures db.tables == old(db.tables).(projects := Rekeyed(old(db.tables.projects), updates))
  {
    for i := 0 to |updates|
      invariant db.tables == old(db.tables).(projects := Rekeyed(old(db.tables.projects), updates[..i]))
    {
      assert updates[..i + 1][..i] == updates[..i];
      db.tables := db.tables.(projects := SetKey(db.tables.projects, updates[i].id, updates[i].key));
    }
    assert updates[..|updates|] == updates;
  }

  lemma SameParentsAcyclic(p: Projects, q: Projects)
    requires Acyclic(p) && q.Keys == p.Keys && forall id :: id in p ==> q[id].parent == p[id].parent
    ensures Acyclic(q)
  {
    forall id | id in q ensures Rooted(q, id) {
      assert Rooted(p, id);
      var n: nat :| Chain(p, id, n);
      ChainDependsOnParents(p, q, id, n);
    }
  }

  /** Sort keys appear in no rule but their own. */
  lemma RekeyKeepsRules(p: Projects, q: Projects, c: Conversations)
    requires SameButKeys(p, q)
    ensures ProjectsLinked(p) ==> ProjectsLinked(q)
    ensures ConversationsLinked(p, c) ==> ConversationsLinked(q, c)
    ensures ProjectStamps(p) ==> ProjectStamps(q)
    ensures ConversationStamps(p, c) ==> ConversationStamps(q, c)
    ensures ProjectEntries(q) == ProjectEntries(p)
  {}

  lemma RekeyKeepsNames(p: Projects, q: Projects, c: Conversations)
    requires SameButKeys(p, q) && ProjectNames(p) && ConversationNames(p, c)
    ensures ProjectNames(q) && ConversationNames(q, c)
  {
    assert forall x :: StampAbove(q, x) == StampAbove(p, x);
    forall a, b | a in q && b in q && a != b && SameLevel(q, a, b) ensures Fold(q[a].name) != Fold(q[b].name) {
      assert SameLevel(p, a, b);
    }
    forall a, b | a in c && b in c && a != b && TogetherIn(q, c, a, b) ensures Fold(c[a].name) != Fold(c[b].name) {
      assert TogetherIn(p, c, a, b);
    }
  }

  lemma RekeyKeeps(p: Projects, q: Projects, c: Conversations)
    requires TreeRules(p, c) && SameButKeys(p, q) && forall id :: id in q ==> WellFormed(q[id].sortKey)
    ensures TreeRules(q, c) && ProjectEntries(q) == ProjectEntries(p)
  {
    SameParentsAcyclic(p, q);
    RekeyKeepsRules(p, q, c);
    RekeyKeepsNames(p, q, c);
  }

  /** Whatever `place` returns for a listed level is well-formed. */
  lemma PlacementWellFormed(listing: seq<Entry>, index: Option<int>)
    requires KeysWellFormed(listing) && Sorted(listing)
    ensures WellFormed(Place(listing, index).key) && KeysWellFormed(Place(listing, index).updates)
  {
    hide WellFormed, Place;
    PlaceAmongTies(listing, index, 0);
    var r, i := Placed(listing, index, 0), Clamp(index, |listing|);
    var p := Place(listing, index);
    assert r[i].key == p.key;
    forall j | 0 <= j < |p.updates| ensures WellFormed(p.updates[j].key) {
      assert r[if j < i then j else j + 1] == p.updates[j];
    }
  }


  // ------------------------------------------------------------------ create

  function CreateProjectVerdict(d: Database, actor: Actor, parent: Option<Id>, name: string): Outcome {
    if Clean(name) == None then Failed(Validation)
    else if RequireWriteBelow(d, actor, parent).Failed? then RequireWriteBelow(d, actor, parent)
    else if ProjectNameTaken(d.projects, parent, Clean(name).value, None) then Failed(NameConflict)
    else Done
  }

  /** A new live row, its creator's ownership and its index entry. */
  function AddProject(d: Database, id: Id, parent: Option<Id>, name: string, prompt: string, key: Key, creator: Id): Database {
    d.(projects := d.projects[id := Project(parent, name, key, prompt, 1, None, None)],
       grants := d.grants[(id, creator) := Owner],
       projectIndex := d.projectIndex[id := ProjectEntry(Segment(name), Segment(prompt))])
  }

  function CreateProjectEffect(d: Database, actor: Actor, parent: Option<Id>, name: string, index: Option<int>,
                               prompt: string, id: Id, listing: seq<Entry>): Database {
    var placement := Place(listing, index);
    AddProject(d.(projects := Rekeyed(d.projects, placement.updates)), id, parent, name, prompt, placement.key, actor.id)
  }

  lemma AddRowAcyclic(p: Projects, id: Id, row: Project)
    requires Acyclic(p) && id !in p && (row.parent.Some? ==> row.parent.value in p)
    ensures Acyclic(p[id := row])
  {
    var q := p[id := row];
    forall x | x in p ensures Rooted(q, x) {
      assert Rooted(p, x);
      var n: nat :| Chain(p, x, n);
      ChainDependsOnParents(p, q, x, n);
    }
    if row.parent.Some? {
      assert Rooted(q, row.parent.value);
      var n: nat :| Chain(q, row.parent.value, n);
      assert Chain(q, id, n + 1);
    } else {
      assert Chain(q, id, 1);
    }
  }


  lemma AddRowNames(p: Projects, c: Conversations, id: Id, row: Project)
    requires ProjectsLinked(p) && ConversationsLinked(p, c) && ProjectNames(p) && ConversationNames(p, c)
    requires id !in p && row.deletedAt == None && (row.parent.Some? ==> LiveProject(p, row.parent.value))
    requires !ProjectNameTaken(p, row.parent, row.name, None)
    ensures ProjectNames(p[id := row]) && ConversationNames(p[id := row], c)
  {
    var q := p[id := row];
    forall a, b | a in q && b in q && a != b && SameLevel(q, a, b) ensures Fold(q[a].name) != Fold(q[b].name) {
      assert a != id && b != id ==> SameLevel(p, a, b);
    }
    forall a, b | a in c && b in c && a != b && TogetherIn(q, c, a, b) ensures Fold(c[a].name) != Fold(c[b].name) {
      assert TogetherIn(p, c, a, b);
    }
  }

  lemma AddRowRules(p: Projects, c: Conversations, id: Id, row: Project)
    requires ProjectsLinked(p) && ConversationsLinked(p, c) && ProjectStamps(p) && ConversationStamps(p, c) && ColumnsOk(p, c)
    requires id !in p && WellFormed(row.sortKey) && NameFits(row.name) && row.deletedAt == None
    requires row.parent.Some? ==> LiveProject(p, row.parent.value)
    ensures var q := p[id := row];
            ProjectsLinked(q) && ConversationsLinked(q, c) && ProjectStamps(q) && ConversationStamps(q, c) && ColumnsOk(q, c)
  {
    hide WellFormed;
  }

  lemma AddRowEntry(p: Projects, id: Id, row: Project)
    requires row.deletedAt == None
    ensures ProjectEntries(p[id := row]) == ProjectEntries(p)[id := ProjectEntry(Segment(row.name), Segment(row.prompt))]
  {}

  lemma AddRowKeeps(p: Projects, c: Conversations, id: Id, row: Project)
    requires TreeRules(p, c) && id !in p && WellFormed(row.sortKey) && NameFits(row.name) && row.deletedAt == None
    requires row.parent.Some? ==> LiveProject(p, row.parent.value)
    requires !ProjectNameTaken(p, row.parent, row.name, None)
    ensures TreeRules(p[id := row], c)
    ensures ProjectEntries(p[id := row]) == ProjectEntries(p)[id := ProjectEntry(Segment(row.name), Segment(row.prompt))]
  {
    hide ProjectsLinked, ConversationsLinked, ProjectStamps, ConversationStamps, ProjectNames, ConversationNames, ColumnsOk, Acyclic,
         ProjectEntries, ProjectNameTaken;
    AddRowAcyclic(p, id, row);
    AddRowNames(p, c, id, row);
    AddRowRules(p, c, id, row);
    AddRowEntry(p, id, row);
  }


  lemma CreateProjectKeeps(d: Database, sha: Bytes -> Digest, actor: Actor, parent: Option<Id>, name: string, index: Option<int>,
                           prompt: string, id: Id, listing: seq<Entry>)
    requires Inv(d, sha) && id !in d.projects && Lists(ProjectLevel(d.projects, parent), listing)
    requires parent.Some? ==> LiveProject(d.projects, parent.value)
    requires NameFits(name) && !ProjectNameTaken(d.projects, parent, name, None)
    ensures Inv(CreateProjectEffect(d, actor, parent, name, index, prompt, id, listing), sha)
  {
    PlacementWellFormed(listing, index);
    var placement := Place(listing, index);
    var q := Rekeyed(d.projects, placement.updates);
    RekeyedOnlyKeys(d.projects, placement.updates);
    RekeyKeeps(d.projects, q, d.conversations);
    var e := CreateProjectEffect(d, actor, parent, name, index, prompt, id, listing);
    AddRowKeeps(q, d.conversations, id, e.projects[id]);
  }

  /** The insert, the ownership grant and the index row of a new project. */
  method InsertProject(db: Handle, id: Id, parent: Option<Id>, name: string, prompt: string, key: Key, creator: Id)
    modifies db
    ensures db.tables == AddProject(old(db.tables), id, parent, name, prompt, key, creator)
  {
    db.tables := db.tables.(projects := db.tables.projects[id := Project(parent, name, key, prompt, 1, None, None)]);
    db.tables := db.tables.(grants := db.tables.grants[(id, creator) := Owner]);
    IndexProject(db, id, name, prompt);
  }

  /** `create_project`; `listing` is what the ordered sibling query returned. */
  method CreateProject(db: Handle, actor: Actor, parent: Option<Id>, name: string,
                       index: Option<int>, prompt: string, id: Id, listing: seq<Entry>) returns (r: Outcome)
    requires id !in db.tables.projects
    modifies db
    ensures r == CreateProjectVerdict(old(db.tables), actor, parent, name)
    ensures db.tables == if r == Done
                         then CreateProjectEffect(old(db.tables), actor, parent, Clean(name).value, index, prompt, id, listing)
                         else old(db.tables)
  {
    var clean := Clean(name);
    if clean == None {
      return Failed(Validation);
    }
    r := CheckWriteBelow(db, actor, parent);
    if r.Failed? {
      return;
    }
    if ProjectNameTaken(db.tables.projects, parent, clean.value, None) {
      return Failed(NameConflict);
    }
    var placement := Place(listing, index);
    ApplySortUpdates(db, placement.updates);
    InsertProject(db, id, parent, clean.value, prompt, placement.key, actor.id);
  }

  // ------------------------------------------------------------------ update

  function UpdateProjectVerdict(d: Database, actor: Actor, id: Id, revision: Option<nat>, name: Option<string>): Outcome {
    if name.Some? && Clean(name.value) == None then Failed(Validation)
    else
      var gate := RequireWrite(d.projects, d.grants, actor, id);
      if gate.Failed? then gate
      else
        var row := d.projects[id];
        if name.Some? && Fold(Clean(name.value).value) != Fold(row.name)
           && ProjectNameTaken(d.projects, row.parent, Clean(name.value).value, None) then Failed(NameConflict)
        else if revision.Some? && revision.value != row.revision then Failed(RevisionConflict)
        else Done
  }

  function UpdateProjectEffect(d: Database, id: Id, name: Option<string>, prompt: Option<string>): Database
    requires id in d.projects && (name.Some? ==> Clean(name.value).Some?)
  {
    var row := d.projects[id];
    var row' := row.(name := if name.Some? then Clean(name.value).value else row.name,
                     prompt := if prompt.Some? then prompt.value else row.prompt, revision := row.revision + 1);
    d.(projects := d.projects[id := row'],
       projectIndex := d.projectIndex[id := ProjectEntry(Segment(row'.name), Segment(row'.prompt))])
  }

  lemma EditRowRules(p: Projects, c: Conversations, id: Id, row: Project)
    requires LiveProject(p, id) && row.deletedAt == None && row.parent == p[id].parent
    requires ProjectsLinked(p) && ProjectStamps(p) && ConversationsLinked(p, c) && ConversationStamps(p, c)
    ensures var q := p[id := row];
            ProjectsLinked(q) && ProjectStamps(q) && ConversationsLinked(q, c) && ConversationStamps(q, c)
            && ProjectEntries(q) == ProjectEntries(p)[id := ProjectEntry(Segment(row.name), Segment(row.prompt))]
  {}

  lemma EditRowNames(p: Projects, c: Conversations, id: Id, row: Project)
    requires ProjectNames(p) && ConversationNames(p, c)
    requires LiveProject(p, id) && row.deletedAt == None && row.parent == p[id].parent
    requires Fold(row.name) == Fold(p[id].name) || !ProjectNameTaken(p, row.parent, row.name, None)
    ensures ProjectNames(p[id := row]) && ConversationNames(p[id := row], c)
  {
    var q := p[id := row];
    assert forall x :: StampAbove(q, x) == StampAbove(p, x);
    forall a, b | a in q && b in q && a != b && SameLevel(q, a, b) ensures Fold(q[a].name) != Fold(q[b].name) {
      assert SameLevel(p, a, b);
    }
    forall a, b | a in c && b in c && a != b && TogetherIn(q, c, a, b) ensures Fold(c[a].name) != Fold(c[b].name) {
      assert TogetherIn(p, c, a, b);
    }
  }

  lemma UpdateProjectChecks(d: Database, actor: Actor, id: Id, revision: Option<nat>, name: Option<string>)
    requires UpdateProjectVerdict(d, actor, id, revision, name) == Done
    ensures LiveProject(d.projects, id) && (name.Some? ==> Clean(name.value).Some?)
    ensures name.Some? && Fold(Clean(name.value).value) != Fold(d.projects[id].name) ==>
              !ProjectNameTaken(d.projects, d.projects[id].parent, Clean(name.value).value, None)
  {}

  lemma UpdateProjectKeeps(d: Database, sha: Bytes -> Digest, id: Id, name: Option<string>, prompt: Option<string>)
    requires Inv(d, sha) && LiveProject(d.projects, id) && (name.Some? ==> Clean(name.value).Some?)
    requires name.Some? && Fold(Clean(name.value).value) != Fold(d.projects[id].name) ==>
               !ProjectNameTaken(d.projects, d.projects[id].parent, Clean(name.value).value, None)
    ensures Inv(UpdateProjectEffect(d, id, name, prompt), sha)
  {
    var e := UpdateProjectEffect(d, id, name, prompt);
    EditRowKeeps(d.projects, d.conversations, id, e.projects[id]);
  }

  lemma EditRowKeeps(p: Projects, c: Conversations, id: Id, row: Project)
    requires TreeRules(p, c) && LiveProject(p, id) && row.deletedAt == None && row.parent == p[id].parent
    requires row.sortKey == p[id].sortKey && NameFits(row.name)
    requires Fold(row.name) == Fold(p[id].name) || !ProjectNameTaken(p, row.parent, row.name, None)
    ensures TreeRules(p[id := row], c)
    ensures ProjectEntries(p[id := row]) == ProjectEntries(p)[id := ProjectEntry(Segment(row.name), Segment(row.prompt))]
  {
    hide ProjectNames, ConversationNames, ColumnsOk, Acyclic, ProjectsLinked, ConversationsLinked, ProjectStamps, ConversationStamps,
         ProjectEntries, ProjectNameTaken;
    EditRowRules(p, c, id, row);
    EditRowNames(p, c, id, row);
    EditRowColumns(p, c, id, row);
    SameParentsAcyclic(p, p[id := row]);
  }

  lemma EditRowColumns(p: Projects, c: Conversations, id: Id, row: Project)
    requires ColumnsOk(p, c) && id in p && row.sortKey == p[id].sortKey && NameFits(row.name)
    ensures ColumnsOk(p[id := row], c)
  {
    hide WellFormed, NameFits;
  }

  /** `update_project` */
  method UpdateProject(db: Handle, actor: Actor, id: Id, revision: Option<nat>, name: Option<string>, prompt: Option<string>)
    returns (r: Outcome)
    modifies db
    ensures r == UpdateProjectVerdict(old(db.tables), actor, id, revision, name)
    ensures r == Done ==> LiveProject(old(db.tables.projects), id) && (name.Some? ==> Clean(name.value).Some?)
    ensures db.tables == if r == Done then UpdateProjectEffect(old(db.tables), id, name, prompt) else old(db.tables)
  {
    var clean := if name.Some? then Clean(name.value) else None;
    if name.Some? && clean == None {
      return Failed(Validation);
    }
    r := CheckWrite(db, actor, id);
    if r.Failed? {
      return;
    }
    var row := db.tables.projects[id];
    if clean.Some? && Fold(clean.value) != Fold(row.name) {
      if ProjectNameTaken(db.tables.projects, row.parent, clean.value, None) {
        return Failed(NameConflict);
      }
    }
    if revision.Some? && revision.value != row.revision {
      return Failed(RevisionConflict);
    }
    var updated := row.(name := if clean.Some? then clean.value else row.name,
                        prompt := if prompt.Some? then prompt.value else row.prompt, revision := row.revision + 1);
    db.tables := db.tables.(projects := db.tables.projects[id := updated]);
    IndexProject(db, id, updated.name, updated.prompt);
  }

  // -------------------------------------------------------------------- move

  /** The checks that come before any write. */
  function MoveProjectGate(d: Database, actor: Actor, id: Id, parent: Option<Id>): (r: Outcome)
    ensures r == Done ==> LiveProject(d.projects, id)
  {
    if !LiveProject(d.projects, id) then Failed(NotFound)
    else if RequireWrite(d.projects, d.grants, actor, id).Failed? then RequireWrite(d.projects, d.grants, actor, id)
    else if RequireWriteBelow(d, actor, parent).Failed? then RequireWriteBelow(d, actor, parent)
    else if parent == Some(id) then Failed(Validation)
    else if parent.Some? && parent.value in Subtree(d.projects, d.projects.Keys, id) then Failed(Validation)
    else if ProjectNameTaken(d.projects, parent, d.projects[id].name, Some(id)) then Failed(NameConflict)
    else Done
  }

  function MoveProjectVerdict(d: Database, actor: Actor, id: Id, revision: Option<nat>, parent: Option<Id>): (r: Outcome)
    ensures r == Done ==> LiveProject(d.projects, id)
  {
    var gate := MoveProjectGate(d, actor, id, parent);
    if gate.Failed? then gate
    else if revision.Some? && revision.value != d.projects[id].revision then Failed(RevisionConflict)
    else Done
  }

  /** Renumber the target level if needed, then give the row its new place. */
  function MoveProjectEffect(d: Database, id: Id, parent: Option<Id>, index: Option<int>, listing: seq<Entry>): Database
  {
    var placement := Place(Except(listing, id), index);
    Reparented(d.(projects := Rekeyed(d.projects, placement.updates)), id, parent, placement.key)
  }

  /** The UPDATE of `move_project`. */
  function Reparented(d: Database, id: Id, parent: Option<Id>, key: Key): Database {
    if id in d.projects
    then d.(projects := d.projects[id := d.projects[id].(parent := parent, sortKey := key, revision := d.projects[id].revision + 1)])
    else d
  }

  lemma MoveRowRules(p: Projects, c: Conversations, id: Id, row: Project)
    requires LiveProject(p, id) && row.deletedAt == None && (row.parent.Some? ==> LiveProject(p, row.parent.value))
    requires row.name == p[id].name && row.prompt == p[id].prompt
    requires ProjectsLinked(p) && ProjectStamps(p) && ConversationsLinked(p, c) && ConversationStamps(p, c)
    ensures var q := p[id := row];
            ProjectsLinked(q) && ProjectStamps(q) && ConversationsLinked(q, c) && ConversationStamps(q, c)
            && ProjectEntries(q) == ProjectEntries(p)
  {}

  lemma MoveRowColumns(p: Projects, c: Conversations, id: Id, row: Project)
    requires ColumnsOk(p, c) && id in p && WellFormed(row.sortKey) && row.name == p[id].name
    ensures ColumnsOk(p[id := row], c)
  {
    hide WellFormed, NameFits;
  }

  lemma MoveRowNames(p: Projects, c: Conversations, id: Id, row: Project)
    requires ProjectNames(p) && ConversationNames(p, c) && ProjectsLinked(p)
    requires LiveProject(p, id) && row.deletedAt == None && row.name == p[id].name
    requires row.parent.Some? ==> LiveProject(p, row.parent.value)
    requires !ProjectNameTaken(p, row.parent, row.name, Some(id))
    ensures ProjectNames(p[id := row]) && ConversationNames(p[id := row], c)
  {
    var q := p[id := row];
    assert forall x :: StampAbove(q, x) == StampAbove(p, x);
    forall a, b | a in q && b in q && a != b && SameLevel(q, a, b) ensures Fold(q[a].name) != Fold(q[b].name) {
      assert a != id && b != id ==> SameLevel(p, a, b);
    }
    forall a, b | a in c && b in c && a != b && TogetherIn(q, c, a, b) ensures Fold(c[a].name) != Fold(c[b].name) {
      assert TogetherIn(p, c, a, b);
    }
  }


  lemma MoveProjectKeeps(d: Database, sha: Bytes -> Digest, id: Id, parent: Option<Id>, index: Option<int>, listing: seq<Entry>)
    requires Inv(d, sha) && LiveProject(d.projects, id)
    requires Lists(ProjectLevel(d.projects, parent), listing)
    requires parent.Some? ==> LiveProject(d.projects, parent.value) && !Beneath(d.projects, id, parent.value)
    requires !ProjectNameTaken(d.projects, parent, d.projects[id].name, Some(id))
    ensures Inv(MoveProjectEffect(d, id, parent, index, listing), sha)
  {
    var placement := Place(Except(listing, id), index);
    ExceptListingWellFormed(d, parent, listing, id, index);
    RekeyedOnlyKeys(d.projects, placement.updates);
    var p := Rekeyed(d.projects, placement.updates);
    RekeyKeeps(d.projects, p, d.conversations);
    var e := MoveProjectEffect(d, id, parent, index, listing);
    MoveRowKeeps(d.projects, p, d.conversations, id, e.projects[id]);
  }

  /** A move that passes its checks keeps the invariants exactly when the new parent is
      nowhere beneath the moved project. In a shallow forest the cycle check has made sure
      of that; in a deeper one it only looked `MAX_DEPTH` links down. */
  lemma MoveProjectExact(d: Database, sha: Bytes -> Digest, actor: Actor, id: Id, revision: Option<nat>, parent: Option<Id>,
                         index: Option<int>, listing: seq<Entry>)
    requires Inv(d, sha) && MoveProjectVerdict(d, actor, id, revision, parent) == Done
    requires Lists(ProjectLevel(d.projects, parent), listing)
    ensures Inv(MoveProjectEffect(d, id, parent, index, listing), sha)
            <==> (parent.Some? ==> !Beneath(d.projects, id, parent.value))
    ensures Shallow(d.projects) ==> Inv(MoveProjectEffect(d, id, parent, index, listing), sha)
  {
    if parent.Some? && Shallow(d.projects) { ShallowWalkComplete(d.projects, id, parent.value); }
    if parent.Some? && Beneath(d.projects, id, parent.value) {
      var placement := Place(Except(listing, id), index);
      var p := Rekeyed(d.projects, placement.updates);
      RekeyedOnlyKeys(d.projects, placement.updates);
      MoveMakesCycle(d.projects, p, id, MoveProjectEffect(d, id, parent, index, listing).projects[id]);
    } else {
      MoveProjectKeeps(d, sha, id, parent, index, listing);
    }
  }

  lemma MoveMakesCycle(before: Projects, p: Projects, id: Id, row: Project)
    requires Acyclic(before) && SameButKeys(before, p) && id in p
    requires row.parent.Some? && row.parent.value in p && Beneath(before, id, row.parent.value)
    ensures !Acyclic(p[id := row])
  {
    ReparentExact(before, id, row, row.parent.value);
    if Acyclic(p[id := row]) { SameParentsAcyclic(p[id := row], before[id := row]); }
  }

  lemma MoveRowKeeps(before: Projects, p: Projects, c: Conversations, id: Id, row: Project)
    requires TreeRules(before, c) && SameButKeys(before, p) && TreeRules(p, c)
    requires LiveProject(p, id) && row == p[id].(parent := row.parent, sortKey := row.sortKey, revision := row.revision)
    requires WellFormed(row.sortKey) && !ProjectNameTaken(p, row.parent, row.name, Some(id))
    requires row.parent.Some? ==> LiveProject(p, row.parent.value) && !Beneath(before, id, row.parent.value)
    ensures TreeRules(p[id := row], c) && ProjectEntries(p[id := row]) == ProjectEntries(p)
  {
    hide ProjectsLinked, ConversationsLinked, ProjectStamps, ConversationStamps, ProjectNames, ConversationNames, ColumnsOk, Acyclic,
         ProjectEntries, ProjectNameTaken, WellFormed;
    MoveRowRules(p, c, id, row);
    MoveRowColumns(p, c, id, row);
    MoveRowNames(p, c, id, row);
    MoveRowAcyclic(before, p, id, row);
  }

  lemma ExceptListingWellFormed(d: Database, parent: Option<Id>, listing: seq<Entry>, id: Id, index: Option<int>)
    requires ColumnsOk(d.projects, d.conversations) && Lists(ProjectLevel(d.projects, parent), listing)
    ensures WellFormed(Place(Except(listing, id), index).key) && KeysWellFormed(Place(Except(listing, id), index).updates)
  {
    ExceptMembers(listing, id);
    ExceptSorted(listing, id);
    var rest := Except(listing, id);
    forall j | 0 <= j < |rest| ensures WellFormed(rest[j].key) {
      assert rest[j] in rest && rest[j] in listing;
    }
    PlacementWellFormed(rest, index);
  }

  lemma MoveRowAcyclic(before: Projects, p: Projects, id: Id, row: Project)
    requires Acyclic(before) && SameButKeys(before, p) && id in p
    requires row.parent.Some? ==> row.parent.value in p && !Beneath(before, id, row.parent.value)
    ensures Acyclic(p[id := row])
  {
    if row.parent.Some? {
      ReparentExact(before, id, row, row.parent.value);
    } else {
      assert Chain(before[id := row], id, 1);
      MovedIsAcyclic(before, before[id := row], id);
    }
    SameParentsAcyclic(before[id := row], p[id := row]);
  }

  /** The checks of `move_project` that come before any write. */
  method CheckMove(db: Handle, actor: Actor, id: Id, parent: Option<Id>) returns (r: Outcome)
    ensures r == MoveProjectGate(db.tables, actor, id, parent)
  {
    if !LiveProject(db.tables.projects, id) {
      return Failed(NotFound);
    }
    r := CheckWrite(db, actor, id);
    if r.Failed? {
      return;
    }
    r := CheckWriteBelow(db, actor, parent);
    if r.Failed? {
      return;
    }
    if parent == Some(id) {
      return Failed(Validation);
    }
    if parent.Some? && parent.value in Subtree(db.tables.projects, db.tables.projects.Keys, id) {
      return Failed(Validation);
    }
    if ProjectNameTaken(db.tables.projects, parent, db.tables.projects[id].name, Some(id)) {
      return Failed(NameConflict);
    }
    r := Done;
  }

  /** `move_project`: the sort updates come before the revision check; a conflict after them
      is undone by the rollback. */
  method MoveProject(db: Handle, actor: Actor, id: Id, revision: Option<nat>, parent: Option<Id>, index: Option<int>,
                     listing: seq<Entry>) returns (r: Outcome)
    modifies db
    ensures r == MoveProjectVerdict(old(db.tables), actor, id, revision, parent)
    ensures db.tables == if r == Done then MoveProjectEffect(old(db.tables), id, parent, index, listing) else old(db.tables)
  {
    var begin := db.tables;
    r := CheckMove(db, actor, id, parent);
    if r.Failed? {
      return;
    }
    var placement := Place(Except(listing, id), index);
    ApplySortUpdates(db, placement.updates);
    RekeyedOnlyKeys(begin.projects, placement.updates);
    var row := db.tables.projects[id];
    if revision.Some? && revision.value != row.revision {
      db.tables := begin; // ROLLBACK
      return Failed(RevisionConflict);
    }
    Reparent(db, id, parent, placement.key);
  }

  method Reparent(db: Handle, id: Id, parent: Option<Id>, key: Key)
    requires id in db.tables.projects
    modifies db
    ensures db.tables == Reparented(old(db.tables), id, parent, key)
  {
    var row := db.tables.projects[id];
    db.tables := db.tables.(projects := db.tables.projects[id := row.(parent := parent, sortKey := key, revision := row.revision + 1)]);
  }


  // ------------------------------------------------------------------ delete

  /** Everything one deletion takes. */
  datatype Batch = Batch(projects: set<Id>, conversations: set<Id>, messages: set<Id>)

  /** The live subtree, its live conversations and their live messages. */
  function DeletionBatch(d: Database, id: Id): Batch {
    var projects := Subtree(d.projects, LiveProjects(d.projects), id);
    var conversations := LiveIn(d.conversations, projects);
    var messages := LiveMessagesOf(d.messages, conversations);
    Batch(projects, conversations, messages)
  }

  function MarkProjects(p: Projects, ids: set<Id>, stamp: Option<Stamp>, author: Option<Id>): (q: Projects)
    ensures q.Keys == p.Keys
  {
    map id | id in p ::
      if id in ids then p[id].(deletedAt := stamp, deletedBy := author, revision := p[id].revision + 1) else p[id]
  }

  function MarkConversations(c: Conversations, ids: set<Id>, stamp: Option<Stamp>, author: Option<Id>): (e: Conversations)
    ensures e.Keys == c.Keys
  {
    map id | id in c ::
      if id in ids then c[id].(deletedAt := stamp, deletedBy := author, revision := c[id].revision + 1) else c[id]
  }

  function MarkMessages(m: Messages, ids: set<Id>, stamp: Option<Stamp>): (n: Messages)
    ensures n.Keys == m.Keys
  {
    map id | id in m :: if id in ids then m[id].(deletedAt := stamp) else m[id]
  }

  /** `soft_delete_subtree` and the three index drops. */
  function MarkBatch(d: Database, batch: Batch, now: Stamp, author: Id): Database {
    d.(projects := MarkProjects(d.projects, batch.projects, Some(now), Some(author)),
       conversations := MarkConversations(d.conversations, batch.conversations, Some(now), Some(author)),
       messages := MarkMessages(d.messages, batch.messages, Some(now)),
       projectIndex := d.projectIndex - batch.projects,
       conversationIndex := d.conversationIndex - batch.conversations,
       messageIndex := d.messageIndex - batch.messages)
  }

  function DeleteProjectVerdict(d: Database, actor: Actor, id: Id, revision: nat): Outcome {
    var gate := RequireWrite(d.projects, d.grants, actor, id);
    if gate.Failed? then gate
    else
      if d.projects[id].revision != revision then Failed(RevisionConflict) else Done
  }

  function DeleteProjectEffect(d: Database, id: Id, now: Stamp, author: Id): Database {
    MarkBatch(d, DeletionBatch(d, id), now, author)
  }

  /** What both the deletion and the restoration of a subtree rely on: the walk took rows
      with one common stamp, each through its parent, below a root whose parent is live. */
  ghost predicate Cut(p: Projects, ids: set<Id>, root: Id, stamp: Option<Stamp>) {
    root in ids && (forall x :: x in ids ==> x in p && p[x].deletedAt == stamp)
    && (forall x :: x in ids && x != root ==> p[x].parent.Some? && p[x].parent.value in ids)
    && (p[root].parent.Some? ==> LiveProject(p, p[root].parent.value) && p[root].parent.value !in ids)
  }

  ghost predicate ClosedBelow(p: Projects, ids: set<Id>, stamp: Option<Stamp>) {
    forall x :: x in p && p[x].deletedAt == stamp && p[x].parent.Some? && p[x].parent.value in ids ==> x in ids
  }

  lemma WalkCuts(p: Projects, root: Id, stamp: Option<Stamp>)
    requires Acyclic(p) && root in p && p[root].deletedAt == stamp
    requires p[root].parent.Some? ==> LiveProject(p, p[root].parent.value)
    ensures Cut(p, Subtree(p, Stamped(p, stamp), root), root, stamp)
    ensures Bounded(p, Stamped(p, stamp), root) ==> ClosedBelow(p, Subtree(p, Stamped(p, stamp), root), stamp)
  {
    var keep := Stamped(p, stamp);
    var ids := Subtree(p, keep, root);
    SubtreeRoot(p, keep, root);
    forall x | x in ids
      ensures x in p && p[x].deletedAt == stamp
      ensures x != root ==> p[x].parent.Some? && p[x].parent.value in ids
    {
      if x != root { SubtreeParent(p, keep, root, x); }
    }
    if Bounded(p, keep, root) {
      forall x | x in p && p[x].deletedAt == stamp && p[x].parent.Some? && p[x].parent.value in ids ensures x in ids {
        SubtreeClosed(p, keep, root, x);
      }
    }
    if p[root].parent.Some? { ParentOutside(p, keep, root); }
  }

  lemma ParentOutside(p: Projects, keep: set<Id>, root: Id)
    requires Acyclic(p) && root in p && p[root].parent.Some?
    ensures p[root].parent.value !in Subtree(p, keep, root)
  {
    var up := p[root].parent.value;
    if up in Subtree(p, keep, root) {
      var k := DepthWithin(p, keep, root, MAX_DEPTH, up);
      assert Rooted(p, root);
      var n: nat :| Chain(p, root, n);
      FringeChain(p, keep, root, k, up, n);
      ChainUnique(p, up, n - 1, n + k);
    }
  }

  function LiveIn(c: Conversations, ids: set<Id>): set<Id> {
    set x | x in c && c[x].project in ids && c[x].deletedAt == None
  }

  lemma MarkedAcyclic(p: Projects, ids: set<Id>, stamp: Option<Stamp>, author: Option<Id>)
    requires Acyclic(p)
    ensures Acyclic(MarkProjects(p, ids, stamp, author))
  {
    SameParentsAcyclic(p, MarkProjects(p, ids, stamp, author));
  }


  lemma MarkedConversationLinks(p: Projects, c: Conversations, ids: set<Id>, cids: set<Id>, stamp: Option<Stamp>, author: Option<Id>)
    requires ConversationsLinked(p, c)
    ensures ConversationsLinked(MarkProjects(p, ids, stamp, author), MarkConversations(c, cids, stamp, author))
  {}


  lemma MarkedLinks(p: Projects, c: Conversations, ids: set<Id>, cids: set<Id>, stamp: Option<Stamp>, author: Option<Id>)
    requires ProjectsLinked(p) && ConversationsLinked(p, c) && ColumnsOk(p, c)
    ensures var q, e := MarkProjects(p, ids, stamp, author), MarkConversations(c, cids, stamp, author);
            ProjectsLinked(q) && ConversationsLinked(q, e) && ColumnsOk(q, e)
  {
    hide ConversationsLinked, ColumnsOk;
    MarkedConversationLinks(p, c, ids, cids, stamp, author);
    MarkedColumns(p, c, ids, cids, stamp, author);
  }

  lemma MarkedColumns(p: Projects, c: Conversations, ids: set<Id>, cids: set<Id>, stamp: Option<Stamp>, author: Option<Id>)
    requires ColumnsOk(p, c)
    ensures ColumnsOk(MarkProjects(p, ids, stamp, author), MarkConversations(c, cids, stamp, author))
  {
    hide WellFormed, NameFits;
  }


  lemma DeleteNames(p: Projects, c: Conversations, root: Id, ids: set<Id>, now: Stamp, author: Option<Id>)
    requires ProjectsLinked(p) && ConversationsLinked(p, c) && ProjectNames(p) && ConversationNames(p, c)
    requires Cut(p, ids, root, None) && ClosedBelow(p, ids, None)
    requires forall x :: x in p && p[x].deletedAt.Some? ==> p[x].deletedAt.value < now
    requires forall x :: x in c && c[x].deletedAt.Some? ==> c[x].deletedAt.value < now
    ensures var q, e := MarkProjects(p, ids, Some(now), author), MarkConversations(c, LiveIn(c, ids), Some(now), author);
            ProjectNames(q) && ConversationNames(q, e)
  {
    var q, e := MarkProjects(p, ids, Some(now), author), MarkConversations(c, LiveIn(c, ids), Some(now), author);
    forall a, b | a in q && b in q && a != b && SameLevel(q, a, b) ensures Fold(q[a].name) != Fold(q[b].name) {
      assert SameLevel(p, a, b);
    }
    forall a, b | a in e && b in e && a != b && TogetherIn(q, e, a, b) ensures Fold(e[a].name) != Fold(e[b].name) {
      assert TogetherIn(p, c, a, b);
    }
  }

  lemma DeleteTreeRules(p: Projects, c: Conversations, root: Id, ids: set<Id>, now: Stamp, author: Option<Id>)
    requires TreeRules(p, c) && Cut(p, ids, root, None) && ClosedBelow(p, ids, None)
    requires forall x :: x in p && p[x].deletedAt.Some? ==> p[x].deletedAt.value < now
    requires forall x :: x in c && c[x].deletedAt.Some? ==> c[x].deletedAt.value < now
    ensures var q, e := MarkProjects(p, ids, Some(now), author), MarkConversations(c, LiveIn(c, ids), Some(now), author);
            TreeRules(q, e)
  {
    hide Acyclic, ProjectsLinked, ConversationsLinked, ProjectNames, ConversationNames, ColumnsOk;
    MarkedAcyclic(p, ids, Some(now), author);
    MarkedLinks(p, c, ids, LiveIn(c, ids), Some(now), author);
    DeleteNames(p, c, root, ids, now, author);
  }

  lemma DeleteEntries(p: Projects, c: Conversations, ids: set<Id>, now: Stamp, author: Option<Id>)
    ensures ProjectEntries(MarkProjects(p, ids, Some(now), author)) == ProjectEntries(p) - ids
    ensures ConversationEntries(MarkConversations(c, LiveIn(c, ids), Some(now), author)) == ConversationEntries(c) - LiveIn(c, ids)
  {}


  lemma DeleteMessagesMirrored(c: Conversations, m: Messages, mi: MessageIndex, grown: set<Id>, cids: set<Id>, now: Stamp, author: Option<Id>)
    requires MessagesMirrored(c, m, mi, grown)
    ensures var ids := LiveMessagesOf(m, cids);
            MessagesMirrored(MarkConversations(c, cids, Some(now), author), MarkMessages(m, ids, Some(now)), mi - ids, grown)
  {
    hide Segment, Blank;
    var ids := LiveMessagesOf(m, cids);
    var e, n := MarkConversations(c, cids, Some(now), author), MarkMessages(m, ids, Some(now));
    forall id ensures Mirrors(e, n, mi - ids, grown, id) {
      assert Mirrors(c, m, mi, grown, id);
    }
  }

  /** Deleting live messages together with some live conversations. */
  lemma DeleteMessageRules(c: Conversations, m: Messages, mi: MessageIndex, grown: set<Id>, cids: set<Id>, now: Stamp, author: Option<Id>)
    requires MessageRules(c, m) && MessagesMirrored(c, m, mi, grown)
    requires forall x :: x in cids ==> LiveConversation(c, x)
    requires forall x :: x in m && m[x].deletedAt.Some? ==> m[x].deletedAt.value < now
    ensures var ids := LiveMessagesOf(m, cids);
            var e, n := MarkConversations(c, cids, Some(now), author), MarkMessages(m, ids, Some(now));
            MessageRules(e, n) && MessagesMirrored(e, n, mi - ids, grown)
  {
    var ids := LiveMessagesOf(m, cids);
    MarkedSequences(m, ids, Some(now));
    DeleteMessagesMirrored(c, m, mi, grown, cids, now, author);
  }


  lemma DeleteTreePart(d: Database, id: Id, now: Stamp, author: Id)
    requires TreeRules(d.projects, d.conversations) && ClockPast(d, now) && LiveProject(d.projects, id)
    requires Bounded(d.projects, LiveProjects(d.projects), id)
    ensures var e := DeleteProjectEffect(d, id, now, author);
            TreeRules(e.projects, e.conversations)
  {
    WalkCuts(d.projects, id, None);
    DeleteTreeRules(d.projects, d.conversations, id, DeletionBatch(d, id).projects, now, Some(author));
  }

  lemma DeleteMirrored(d: Database, id: Id, now: Stamp, author: Id)
    requires Mirrored(d) && MessageRules(d.conversations, d.messages) && ClockPast(d, now)
    ensures var e := DeleteProjectEffect(d, id, now, author);
            Mirrored(e) && MessageRules(e.conversations, e.messages)
  {
    var batch := DeletionBatch(d, id);
    DeleteEntries(d.projects, d.conversations, batch.projects, now, Some(author));
    DeleteMessageRules(d.conversations, d.messages, d.messageIndex, d.grown, batch.conversations, now, Some(author));
  }

  lemma DeleteProjectKeeps(d: Database, sha: Bytes -> Digest, id: Id, now: Stamp, author: Id)
    requires Inv(d, sha) && ClockPast(d, now) && LiveProject(d.projects, id)
    requires Bounded(d.projects, LiveProjects(d.projects), id)
    ensures Inv(DeleteProjectEffect(d, id, now, author), sha)
  {
    var e := DeleteProjectEffect(d, id, now, author);
    DeleteTreePart(d, id, now, author);
    DeleteMirrored(d, id, now, author);
  }

  /** A deletion keeps the invariants exactly when no live project lies more than
      `MAX_DEPTH` links below the deleted one: past that the walk stops, and a live row is
      left under a deleted one. */
  lemma DeleteProjectExact(d: Database, sha: Bytes -> Digest, id: Id, now: Stamp, author: Id)
    requires Inv(d, sha) && ClockPast(d, now) && LiveProject(d.projects, id)
    ensures Inv(DeleteProjectEffect(d, id, now, author), sha) <==> Bounded(d.projects, LiveProjects(d.projects), id)
  {
    var live := LiveProjects(d.projects);
    if Bounded(d.projects, live, id) {
      DeleteProjectKeeps(d, sha, id, now, author);
    } else {
      var x, k: nat :| x in Fringe(d.projects, live, id, k) && k > MAX_DEPTH;
      assert Rooted(d.projects, id);
      var child := SubtreeNotClosed(d.projects, live, id, x, k);
      var q := DeleteProjectEffect(d, id, now, author).projects;
      assert !NotLater(q[child].deletedAt, q[q[child].parent.value].deletedAt);
      assert !ProjectStamps(q);
    }
  }

  // ----------------------------------------------------------------- restore

  function RestoreProjectVerdict(d: Database, actor: Actor, id: Id): (r: Outcome)
    ensures r == Done ==> id in d.projects && d.projects[id].deletedAt.Some?
    ensures r == Done && d.projects[id].parent.Some? ==> LiveProject(d.projects, d.projects[id].parent.value)
    ensures r == Done ==> !ProjectNameTaken(d.projects, d.projects[id].parent, d.projects[id].name, Some(id))
  {
    if id !in d.projects || d.projects[id].deletedAt == None then Failed(NotFound)
    else
      var row := d.projects[id];
      if row.parent == None && actor.role != Admin then Failed(PermissionDenied)
      else if row.parent.Some? && !LiveProject(d.projects, row.parent.value) then Failed(Conflict)
      else if row.parent.Some? && RequireWrite(d.projects, d.grants, actor, row.parent.value).Failed?
      then RequireWrite(d.projects, d.grants, actor, row.parent.value)
      else if ProjectNameTaken(d.projects, row.parent, row.name, Some(id)) then Failed(NameConflict)
      else Done
  }

  function StampedIn(c: Conversations, ids: set<Id>, stamp: Option<Stamp>): set<Id> {
    set x | x in c && c[x].project in ids && c[x].deletedAt == stamp
  }

  function StampedMessages(m: Messages, cids: set<Id>, stamp: Option<Stamp>): set<Id> {
    set x | x in m && m[x].conversation in cids && m[x].deletedAt == stamp
  }

  /** The rows below `id` that carry its exact stamp. */
  function RestorationBatch(d: Database, id: Id): Batch
    requires id in d.projects
  {
    var stamp := d.projects[id].deletedAt;
    var projects := Subtree(d.projects, Stamped(d.projects, stamp), id);
    var conversations := StampedIn(d.conversations, projects, stamp);
    Batch(projects, conversations, StampedMessages(d.messages, conversations, stamp))
  }

  /** The three UPDATEs of `restore_subtree`. */
  function UnmarkBatch(d: Database, batch: Batch): Database {
    d.(projects := MarkProjects(d.projects, batch.projects, None, None),
       conversations := MarkConversations(d.conversations, batch.conversations, None, None),
       messages := MarkMessages(d.messages, batch.messages, None))
  }

  function RestoreProjectEffect(d: Database, id: Id): Database
    requires id in d.projects
  {
    var batch := RestorationBatch(d, id);
    var e := UnmarkBatch(d, batch);
    Reindexed(e.(projectIndex := ReindexedProjects(e.projects, e.projectIndex, batch.projects)), batch.conversations)
  }

  lemma RestoreStamps(p: Projects, c: Conversations, root: Id, ids: set<Id>, stamp: Stamp)
    requires ProjectsLinked(p) && ConversationsLinked(p, c) && ProjectStamps(p) && ConversationStamps(p, c)
    requires Cut(p, ids, root, Some(stamp))
    ensures var q, e := MarkProjects(p, ids, None, None), MarkConversations(c, StampedIn(c, ids, Some(stamp)), None, None);
            ProjectStamps(q) && ConversationStamps(q, e)
  {
    var q := MarkProjects(p, ids, None, None);
    forall x | x in q && q[x].parent.Some? && q[x].parent.value in q
      ensures NotLater(q[x].deletedAt, q[q[x].parent.value].deletedAt)
    {
      assert NotLater(p[x].deletedAt, p[p[x].parent.value].deletedAt);
    }
  }

  /** Only the root's name is checked: below it, the restored rows were siblings that
      lived together when they were deleted. */
  lemma RestoreNames(p: Projects, c: Conversations, root: Id, ids: set<Id>, stamp: Stamp)
    requires ProjectsLinked(p) && ConversationsLinked(p, c) && ProjectNames(p) && ConversationNames(p, c)
    requires ProjectStamps(p) && ConversationStamps(p, c) && Cut(p, ids, root, Some(stamp))
    requires !ProjectNameTaken(p, p[root].parent, p[root].name, Some(root))
    ensures var q, e := MarkProjects(p, ids, None, None), MarkConversations(c, StampedIn(c, ids, Some(stamp)), None, None);
            ProjectNames(q) && ConversationNames(q, e)
  {
    var q, e := MarkProjects(p, ids, None, None), MarkConversations(c, StampedIn(c, ids, Some(stamp)), None, None);
    forall a, b | a in q && b in q && a != b && SameLevel(q, a, b) ensures Fold(q[a].name) != Fold(q[b].name) {
      assert a != root && b != root ==> SameLevel(p, a, b);
    }
    forall a, b | a in e && b in e && a != b && TogetherIn(q, e, a, b) ensures Fold(e[a].name) != Fold(e[b].name) {
      assert TogetherIn(p, c, a, b);
    }
  }

  lemma RestoreTreeRules(d: Database, id: Id)
    requires TreeRules(d.projects, d.conversations) && id in d.projects && d.projects[id].deletedAt.Some?
    requires d.projects[id].parent.Some? ==> LiveProject(d.projects, d.projects[id].parent.value)
    requires !ProjectNameTaken(d.projects, d.projects[id].parent, d.projects[id].name, Some(id))
    ensures var e := RestoreProjectEffect(d, id); TreeRules(e.projects, e.conversations)
  {
    var p, c, batch, stamp := d.projects, d.conversations, RestorationBatch(d, id), d.projects[id].deletedAt;
    WalkCuts(p, id, stamp);
    MarkedAcyclic(p, batch.projects, None, None);
    MarkedLinks(p, c, batch.projects, batch.conversations, None, None);
    RestoreStamps(p, c, id, batch.projects, stamp.value);
    RestoreNames(p, c, id, batch.projects, stamp.value);
  }


  lemma MarkedSequences(m: Messages, ids: set<Id>, stamp: Option<Stamp>)
    requires SequencesUnique(m)
    ensures SequencesUnique(MarkMessages(m, ids, stamp))
  {}


  lemma RestoreMessageRows(c: Conversations, m: Messages, cids: set<Id>, stamp: Stamp)
    requires MessageRules(c, m)
    ensures var e, n := MarkConversations(c, cids, None, None), MarkMessages(m, StampedMessages(m, cids, Some(stamp)), None);
            MessageRules(e, n)
  {
    var ids := StampedMessages(m, cids, Some(stamp));
    MarkedSequences(m, ids, None);
  }

  lemma RestoreMessagesMirrored(c: Conversations, m: Messages, mi: MessageIndex, grown: set<Id>, cids: set<Id>, stamp: Stamp)
    requires MessagesLinked(c, m) && MessagesMirrored(c, m, mi, grown)
    ensures var e, n := MarkConversations(c, cids, None, None), MarkMessages(m, StampedMessages(m, cids, Some(stamp)), None);
            var ids := LiveMessagesOf(n, cids);
            MessagesMirrored(e, n, ReindexedMessages(e, n, mi, ids), grown - ids)
  {
    var e, n := MarkConversations(c, cids, None, None), MarkMessages(m, StampedMessages(m, cids, Some(stamp)), None);
    forall id ensures Mirrors(e, n, mi, grown, id) || (id in n && n[id].conversation in cids) {
      assert Mirrors(c, m, mi, grown, id);
    }
    forall id | id in n && n[id].conversation in cids && id in mi ensures LiveMessage(n, id) {
      assert Mirrors(c, m, mi, grown, id);
    }
    ReindexMirrors(e, n, mi, grown, cids);
  }

  lemma RestoreEntries(p: Projects, c: Conversations, ids: set<Id>, cids: set<Id>)
    requires ids <= p.Keys && cids <= c.Keys
    ensures var q := MarkProjects(p, ids, None, None);
            ReindexedProjects(q, ProjectEntries(p), ids) == ProjectEntries(q)
    ensures var e := MarkConversations(c, cids, None, None);
            ReindexedConversations(e, ConversationEntries(c), cids) == ConversationEntries(e)
  {}

  lemma RestoreMirrored(d: Database, id: Id)
    requires Mirrored(d) && MessageRules(d.conversations, d.messages) && id in d.projects && d.projects[id].deletedAt.Some?
    requires RestorationBatch(d, id).projects <= d.projects.Keys
    ensures var e := RestoreProjectEffect(d, id);
            Mirrored(e) && MessageRules(e.conversations, e.messages)
  {
    var batch, stamp := RestorationBatch(d, id), d.projects[id].deletedAt;
    RestoreEntries(d.projects, d.conversations, batch.projects, batch.conversations);
    RestoreMessageRows(d.conversations, d.messages, batch.conversations, stamp.value);
    RestoreMessagesMirrored(d.conversations, d.messages, d.messageIndex, d.grown, batch.conversations, stamp.value);
  }

  /** A restoration that passes its checks keeps every invariant, at any depth. */
  lemma RestoreProjectKeeps(d: Database, sha: Bytes -> Digest, actor: Actor, id: Id)
    requires Inv(d, sha) && RestoreProjectVerdict(d, actor, id) == Done
    ensures Inv(RestoreProjectEffect(d, id), sha)
  {
    var e := RestoreProjectEffect(d, id);
    WalkCuts(d.projects, id, d.projects[id].deletedAt);
    RestoreTreeRules(d, id);
    RestoreMirrored(d, id);
  }

  /** `soft_delete_subtree`: three SELECTs, then three UPDATEs. */
  method SoftDeleteSubtree(db: Handle, id: Id, now: Stamp, author: Id) returns (batch: Batch)
    modifies db
    ensures batch == DeletionBatch(old(db.tables), id)
    ensures db.tables == old(db.tables).(
              projects := MarkProjects(old(db.tables.projects), batch.projects, Some(now), Some(author)),
              conversations := MarkConversations(old(db.tables.conversations), batch.conversations, Some(now), Some(author)),
              messages := MarkMessages(old(db.tables.messages), batch.messages, Some(now)))
  {
    batch := DeletionBatch(db.tables, id);
    db.tables := db.tables.(projects := MarkProjects(db.tables.projects, batch.projects, Some(now), Some(author)));
    db.tables := db.tables.(conversations := MarkConversations(db.tables.conversations, batch.conversations, Some(now), Some(author)));
    db.tables := db.tables.(messages := MarkMessages(db.tables.messages, batch.messages, Some(now)));
  }

  /** `delete_project` */
  method DeleteProject(db: Handle, actor: Actor, id: Id, revision: nat, now: Stamp) returns (r: Outcome)
    modifies db
    ensures r == DeleteProjectVerdict(old(db.tables), actor, id, revision)
    ensures db.tables == if r == Done then DeleteProjectEffect(old(db.tables), id, now, actor.id) else old(db.tables)
  {
    r := CheckWrite(db, actor, id);
    if r.Failed? {
      return;
    }
    if db.tables.projects[id].revision != revision {
      return Failed(RevisionConflict);
    }
    var batch := SoftDeleteSubtree(db, id, now, actor.id);
    var order := Listing(batch.projects);
    DropProjects(db, order);
    order := Listing(batch.conversations);
    DropConversations(db, order);
    order := Listing(batch.messages);
    DropMessages(db, order);
  }

  /** `restore_subtree` */
  method RestoreSubtree(db: Handle, id: Id) returns (batch: Batch)
    requires id in db.tables.projects
    modifies db
    ensures batch == RestorationBatch(old(db.tables), id)
    ensures db.tables == UnmarkBatch(old(db.tables), batch)
  {
    batch := RestorationBatch(db.tables, id);
    db.tables := db.tables.(projects := MarkProjects(db.tables.projects, batch.projects, None, None));
    db.tables := db.tables.(conversations := MarkConversations(db.tables.conversations, batch.conversations, None, None));
    db.tables := db.tables.(messages := MarkMessages(db.tables.messages, batch.messages, None));
  }

  /** The checks of `restore_project`. */
  method CheckRestore(db: Handle, actor: Actor, id: Id) returns (r: Outcome)
    ensures r == RestoreProjectVerdict(db.tables, actor, id)
  {
    if id !in db.tables.projects || db.tables.projects[id].deletedAt == None {
      return Failed(NotFound);
    }
    var row := db.tables.projects[id];
    match row.parent {
      case None =>
        if actor.role != Admin {
          return Failed(PermissionDenied);
        }
      case Some(parent) =>
        if !LiveProject(db.tables.projects, parent) {
          return Failed(Conflict);
        }
        r := CheckWrite(db, actor, parent);
        if r.Failed? {
          return;
        }
    }
    if ProjectNameTaken(db.tables.projects, row.parent, row.name, Some(id)) {
      return Failed(NameConflict);
    }
    r := Done;
  }

  lemma SubtreeStored(p: Projects, keep: set<Id>, root: Id)
    requires root in p
    ensures Subtree(p, keep, root) <= p.Keys
  {
    forall x | x in Subtree(p, keep, root) ensures x in p {
      if x != root { SubtreeParent(p, keep, root, x); }
    }
  }

  /** `restore_project` */
  method RestoreProject(db: Handle, actor: Actor, id: Id) returns (r: Outcome)
    modifies db
    ensures r == RestoreProjectVerdict(old(db.tables), actor, id)
    ensures db.tables == if r == Done then RestoreProjectEffect(old(db.tables), id) else old(db.tables)
  {
    r := CheckRestore(db, actor, id);
    if r.Failed? {
      return;
    }
    SubtreeStored(db.tables.projects, Stamped(db.tables.projects, db.tables.projects[id].deletedAt), id);
    var batch := RestoreSubtree(db, id);
    var order := Listing(batch.projects);
    ReindexProjects(db, order);
    order := Listing(batch.conversations);
    ReindexConversations(db, order);
  }

  // ------------------------------------------------------------- memberships

  function GrantVerdict(d: Database, actor: Actor, id: Id, known: bool): (r: Outcome)
    ensures r == Done ==> id in d.projects
  {
    if RequireOwner(d.projects, d.grants, actor, id).Failed? then RequireOwner(d.projects, d.grants, actor, id)
    else if !known then Failed(NotFound)
    else Done
  }

  function RevokeVerdict(d: Database, actor: Actor, id: Id): (r: Outcome)
    ensures r == Done ==> id in d.projects
  {
    RequireOwner(d.projects, d.grants, actor, id)
  }

  lemma GrantsKeep(d: Database, sha: Bytes -> Digest, id: Id, user: Id, permission: Permission)
    requires Inv(d, sha) && id in d.projects
    ensures Inv(d.(grants := d.grants[(id, user) := permission]), sha)
    ensures Inv(d.(grants := d.grants - {(id, user)}), sha)
  {
  }

  /** `require_owner` */
  method CheckOwner(db: Handle, actor: Actor, id: Id) returns (r: Outcome)
    ensures r == RequireOwner(db.tables.projects, db.tables.grants, actor, id)
  {
    var permission := FindPermission(db.tables.projects, db.tables.grants, actor, id);
    match permission
    case None => r := Failed(NotFound);
    case Some(Owner) => r := Done;
    case Some(_) => r := Failed(PermissionDenied);
  }

  /** `grant`; `known` says whether the user exists. */
  method Grant(db: Handle, actor: Actor, id: Id, user: Id, permission: Permission, known: bool) returns (r: Outcome)
    modifies db
    ensures r == GrantVerdict(old(db.tables), actor, id, known)
    ensures db.tables == if r == Done then old(db.tables).(grants := old(db.tables.grants)[(id, user) := permission]) else old(db.tables)
  {
    r := CheckOwner(db, actor, id);
    if r.Failed? {
      return;
    }
    if !known {
      return Failed(NotFound);
    }
    db.tables := db.tables.(grants := db.tables.grants[(id, user) := permission]);
  }

  /** `revoke` */
  method Revoke(db: Handle, actor: Actor, id: Id, user: Id) returns (r: Outcome)
    modifies db
    ensures r == RevokeVerdict(old(db.tables), actor, id)
    ensures db.tables == if r == Done then old(db.tables).(grants := old(db.tables.grants) - {(id, user)}) else old(db.tables)
  {
    r := CheckOwner(db, actor, id);
    if r == Done {
      db.tables := db.tables.(grants := db.tables.grants - {(id, user)});
    }
  }
}
