/** The tables of the service and what its queries mean.

  A table is a map from row id to row; a `Tables` value is one committed state of the
  database. Columns no rule depends on (settings other than the prompt, expansion state,
  timestamps other than the deletion stamp, authors) are left out. */
module Tables {
  import opened Base
  import opened Ids
  import opened Levels
  import opened Naming

  /** Milliseconds since the epoch. */
  type Stamp = int

  /** `MAX_DEPTH`, the guard of every recursive walk. */
  const MAX_DEPTH: nat := 200

  datatype Project = Project(
    parent: Option<Id>, name: string, sortKey: Key, prompt: string,
    revision: nat, deletedAt: Option<Stamp>, deletedBy: Option<Id>)

  datatype Conversation = Conversation(
    project: Id, name: string, sortKey: Key,
    thread: Option<Id>, session: Option<Id>, forkedFrom: Option<Id>, forkedSession: Option<Id>,
    revision: nat, deletedAt: Option<Stamp>, deletedBy: Option<Id>)

  datatype Role = UserRole | AgentRole | ReasoningRole | ToolRole | ErrorRole | NoticeRole | MetaRole

  datatype Message = Message(
    conversation: Id, parentMessage: Option<Id>, sequenceNo: nat,
    role: Role, content: string, event: Option<Id>, completed: bool, deletedAt: Option<Stamp>)

  datatype Permission = Viewer | Editor | Owner

  datatype AccountRole = Admin | Member | ReadOnly

  /** The authenticated caller. */
  datatype Actor = Actor(id: Id, role: AccountRole)

  type Projects = map<Id, Project>
  type Conversations = map<Id, Conversation>
  type Messages = map<Id, Message>

  /** `project_memberships`, keyed by (project, user). */
  type Grants = map<(Id, Id), Permission>

  // ------------------------------------------------------------- read side

  predicate LiveProject(projects: Projects, id: Id) { id in projects && projects[id].deletedAt == None }

  predicate LiveConversation(conversations: Conversations, id: Id) {
    id in conversations && conversations[id].deletedAt == None
  }

  predicate LiveMessage(messages: Messages, id: Id) { id in messages && messages[id].deletedAt == None }

  function LiveProjects(projects: Projects): set<Id> { set id | id in projects && projects[id].deletedAt == None }

  /** The rows a recursive walk may step onto: those with exactly this deletion stamp. */
  function Stamped(projects: Projects, stamp: Option<Stamp>): set<Id> {
    set id | id in projects && projects[id].deletedAt == stamp
  }

  /** `ORDER BY sort_key` over the live children of a parent reads this level. */
  function ProjectLevel(projects: Projects, parent: Option<Id>): Level {
    map id | id in projects && projects[id].parent == parent && projects[id].deletedAt == None :: projects[id].sortKey
  }

  function ConversationLevel(conversations: Conversations, project: Id): Level {
    map id | id in conversations && conversations[id].project == project && conversations[id].deletedAt == None
           :: conversations[id].sortKey
  }

  /** `live_name_taken` for projects. */
  predicate ProjectNameTaken(projects: Projects, parent: Option<Id>, name: string, except: Option<Id>) {
    exists id :: id in projects && projects[id].parent == parent && projects[id].deletedAt == None
                 && Fold(projects[id].name) == Fold(name) && except != Some(id)
  }

  predicate ConversationNameTaken(conversations: Conversations, project: Id, name: string, except: Option<Id>) {
    exists id :: id in conversations && conversations[id].project == project && conversations[id].deletedAt == None
                 && Fold(conversations[id].name) == Fold(name) && except != Some(id)
  }

  // ------------------------------------------------------- the parent graph

  /** Following parents from `id` meets exactly `n` rows and ends at a root. */
  predicate Chain(projects: Projects, id: Id, n: nat)
    decreases n
  {
    id in projects && n > 0
    && match projects[id].parent
       case None => n == 1
       case Some(up) => Chain(projects, up, n - 1)
  }

  ghost predicate Rooted(projects: Projects, id: Id) { exists n: nat :: Chain(projects, id, n) }

  ghost predicate Acyclic(projects: Projects) { forall id {:trigger Rooted(projects, id)} :: id in projects ==> Rooted(projects, id) }

  /** Every ancestor chain has at most `MAX_DEPTH` rows. No operation enforces this, so it
      is a hypothesis exactly where a recursive walk has to be complete. */
  ghost predicate Shallow(projects: Projects) {
    forall id, n: nat :: Chain(projects, id, n) ==> n <= MAX_DEPTH
  }

  lemma {:induction false} ChainUnique(projects: Projects, id: Id, m: nat, n: nat)
    requires Chain(projects, id, m) && Chain(projects, id, n)
    ensures m == n
    decreases m
  {
    if projects[id].parent.Some? {
      ChainUnique(projects, projects[id].parent.value, m - 1, n - 1);
    }
  }

  /** Two graphs with the same parent links have the same chains. */
  lemma {:induction false} ChainDependsOnParents(before: Projects, after: Projects, id: Id, n: nat)
    requires before.Keys <= after.Keys
    requires forall x :: x in before ==> after[x].parent == before[x].parent
    requires Chain(before, id, n)
    ensures Chain(after, id, n)
    decreases n
  {
    if before[id].parent.Some? {
      ChainDependsOnParents(before, after, before[id].parent.value, n - 1);
    }
  }

  /** The rows `n` parent links below `root`, stepping only onto rows in `keep`. */
  function Fringe(projects: Projects, keep: set<Id>, root: Id, n: nat): set<Id> {
    if n == 0 then {root}
    else
      var above := Fringe(projects, keep, root, n - 1);
      set id | id in projects && id in keep && projects[id].parent.Some? && projects[id].parent.value in above
  }

  /** `WITH RECURSIVE sub`: the root and everything within `n` links below it. */
  function Within(projects: Projects, keep: set<Id>, root: Id, n: nat): set<Id> {
    if n == 0 then {root} else Within(projects, keep, root, n - 1) + Fringe(projects, keep, root, n)
  }

  /** The recursive walks of `descendant_ids`, `soft_delete_subtree` and `restore_subtree`,
      which differ in the rows they may step onto. */
  function Subtree(projects: Projects, keep: set<Id>, root: Id): set<Id> {
    Within(projects, keep, root, MAX_DEPTH)
  }

  /** The walk takes exactly the rows it finds at most `n` links below the root: every one
      of them, here, and with the next lemma no other. */
  lemma {:induction false} FringeInWithin(projects: Projects, keep: set<Id>, root: Id, n: nat, d: nat, id: Id)
    requires d <= n && id in Fringe(projects, keep, root, d)
    ensures id in Within(projects, keep, root, n)
    decreases n
  {
    if d < n { FringeInWithin(projects, keep, root, n - 1, d, id); }
  }

  lemma {:induction false} DepthWithin(projects: Projects, keep: set<Id>, root: Id, n: nat, id: Id) returns (d: nat)
    requires id in Within(projects, keep, root, n)
    ensures d <= n && id in Fringe(projects, keep, root, d)
    decreases n
  {
    if n == 0 {
      d := 0;
    } else if id in Fringe(projects, keep, root, n) {
      d := n;
    } else {
      d := DepthWithin(projects, keep, root, n - 1, id);
    }
  }

  /** A row `d` links below a rooted row sits `d` rows further from the top. */
  lemma {:induction false} FringeChain(projects: Projects, keep: set<Id>, root: Id, d: nat, id: Id, k: nat)
    requires id in Fringe(projects, keep, root, d) && Chain(projects, root, k)
    ensures Chain(projects, id, k + d)
    decreases d
  {
    if d > 0 {
      FringeChain(projects, keep, root, d - 1, projects[id].parent.value, k);
    }
  }

  lemma {:induction false} RootOfFringe(projects: Projects, keep: set<Id>, root: Id, d: nat, id: Id, n: nat)
    requires id in Fringe(projects, keep, root, d) && Chain(projects, id, n)
    ensures d < n && Chain(projects, root, n - d)
    decreases d
  {
    if d > 0 {
      RootOfFringe(projects, keep, root, d - 1, projects[id].parent.value, n - 1);
    }
  }

  /** Somewhere below `root`, however deep, `root` itself included. */
  ghost predicate Beneath(projects: Projects, root: Id, id: Id) {
    exists d: nat :: id in Fringe(projects, projects.Keys, root, d)
  }

  lemma BeneathChild(projects: Projects, root: Id, id: Id)
    requires id in projects && projects[id].parent.Some? && Beneath(projects, root, projects[id].parent.value)
    ensures Beneath(projects, root, id)
  {
    var d: nat :| projects[id].parent.value in Fringe(projects, projects.Keys, root, d);
    assert id in Fringe(projects, projects.Keys, root, d + 1);
  }

  /** In a shallow forest the guarded walk misses nothing. */
  lemma ShallowWalkComplete(projects: Projects, root: Id, id: Id)
    requires Acyclic(projects) && Shallow(projects) && id in projects
    ensures Beneath(projects, root, id) <==> id in Subtree(projects, projects.Keys, root)
  {
    if Beneath(projects, root, id) {
      var d: nat :| id in Fringe(projects, projects.Keys, root, d);
      assert Rooted(projects, id);
      var n: nat :| Chain(projects, id, n);
      RootOfFringe(projects, projects.Keys, root, d, id, n);
      FringeInWithin(projects, projects.Keys, root, MAX_DEPTH, d, id);
    } else if id in Subtree(projects, projects.Keys, root) {
      var d := DepthWithin(projects, projects.Keys, root, MAX_DEPTH, id);
    }
  }

  /** No kept row is more than `MAX_DEPTH` links below the root. */
  ghost predicate Bounded(projects: Projects, keep: set<Id>, root: Id) {
    forall id, d: nat :: id in Fringe(projects, keep, root, d) ==> d <= MAX_DEPTH
  }

  lemma ShallowIsBounded(projects: Projects, keep: set<Id>, root: Id)
    requires Acyclic(projects) && Shallow(projects) && root in projects
    ensures Bounded(projects, keep, root)
  {
    assert Rooted(projects, root);
    var n: nat :| Chain(projects, root, n);
    forall id, d: nat | id in Fringe(projects, keep, root, d) ensures d <= MAX_DEPTH {
      FringeChain(projects, keep, root, d, id, n);
    }
  }

  /** A bounded walk is complete: it is closed under kept children. */
  lemma SubtreeClosed(projects: Projects, keep: set<Id>, root: Id, id: Id)
    requires Bounded(projects, keep, root)
    requires id in projects && id in keep && projects[id].parent.Some?
    requires projects[id].parent.value in Subtree(projects, keep, root)
    ensures id in Subtree(projects, keep, root)
  {
    var d := DepthWithin(projects, keep, root, MAX_DEPTH, projects[id].parent.value);
    assert id in Fringe(projects, keep, root, d + 1);
    FringeInWithin(projects, keep, root, MAX_DEPTH, d + 1, id);
  }

  /** An unbounded walk leaves out a kept child of a row it reached. */
  lemma {:induction false} SubtreeNotClosed(projects: Projects, keep: set<Id>, root: Id, id: Id, d: nat) returns (child: Id)
    requires Rooted(projects, root) && id in Fringe(projects, keep, root, d) && d > MAX_DEPTH
    ensures child in projects && child in keep && projects[child].parent.Some?
    ensures projects[child].parent.value in Subtree(projects, keep, root) && child !in Subtree(projects, keep, root)
    decreases d
  {
    if d > MAX_DEPTH + 1 {
      child := SubtreeNotClosed(projects, keep, root, projects[id].parent.value, d - 1);
    } else {
      child := id;
      FringeInWithin(projects, keep, root, MAX_DEPTH, MAX_DEPTH, projects[id].parent.value);
      var n: nat :| Chain(projects, root, n);
      FringeChain(projects, keep, root, d, id, n);
      if id in Subtree(projects, keep, root) {
        var k := DepthWithin(projects, keep, root, MAX_DEPTH, id);
        FringeChain(projects, keep, root, k, id, n);
        ChainUnique(projects, id, n + d, n + k);
      }
    }
  }

  /** Everything the walk reaches below the root was reached through its parent. */
  lemma SubtreeParent(projects: Projects, keep: set<Id>, root: Id, id: Id)
    requires id in Subtree(projects, keep, root) && id != root
    ensures id in projects && id in keep && projects[id].parent.Some?
    ensures projects[id].parent.value in Subtree(projects, keep, root)
  {
    var d := DepthWithin(projects, keep, root, MAX_DEPTH, id);
    assert d > 0;
    assert projects[id].parent.value in Fringe(projects, keep, root, d - 1);
    FringeInWithin(projects, keep, root, MAX_DEPTH, d - 1, projects[id].parent.value);
  }

  lemma SubtreeRoot(projects: Projects, keep: set<Id>, root: Id)
    ensures root in Subtree(projects, keep, root)
  {
    FringeInWithin(projects, keep, root, MAX_DEPTH, 0, root);
  }

  /** A single line of `n` live projects, each below the one before: the shape that
      defeats a depth guard. */
  function Line(n: nat): (projects: Projects)
    ensures forall id: Id :: id in projects <==> id < n
    ensures forall id :: id in projects ==> projects[id] == LineRow(id)
  {
    if n == 0 then map[] else Line(n - 1)[n - 1 := LineRow(n - 1)]
  }

  function LineRow(id: Id): Project {
    Project(if id == 0 then None else Some(id - 1), "p", [31, 0, 0, 1], "", 1, None, None)
  }

  lemma {:induction false} LineChain(n: nat, id: Id)
    requires id < n
    ensures Chain(Line(n), id, id + 1)
    decreases id
  {
    if id > 0 { LineChain(n, id - 1); }
  }

  lemma {:induction false} LineFringe(n: nat, keep: set<Id>, d: nat, id: Id)
    requires forall x: Id :: x in keep <==> x < n
    ensures id in Fringe(Line(n), keep, 0, d) <==> id == d && (d == 0 || d < n)
    decreases d
  {
    hide Line;
    if d > 0 {
      if 0 < id < n { LineFringe(n, keep, d - 1, id - 1); }
      assert id in Fringe(Line(n), keep, 0, d) <==> 0 < id < n && id - 1 in Fringe(Line(n), keep, 0, d - 1);
    }
  }

  /** The walk from the top of a line stops after `MAX_DEPTH` links. */
  lemma LineSubtree(n: nat, keep: set<Id>, id: Id)
    requires n > 0 && forall x: Id :: x in keep <==> x < n
    ensures id in Subtree(Line(n), keep, 0) <==> id < n && id <= MAX_DEPTH
  {
    if id < n && id <= MAX_DEPTH {
      LineFringe(n, keep, id, id);
      FringeInWithin(Line(n), keep, 0, MAX_DEPTH, id, id);
    } else if id in Subtree(Line(n), keep, 0) {
      var d := DepthWithin(Line(n), keep, 0, MAX_DEPTH, id);
      LineFringe(n, keep, d, id);
    }
  }

  // -------------------------------------------------------------- reparenting

  /** Above a row that is not beneath `id`, moving `id` changes nothing. */
  lemma {:induction false} ChainAvoids(p: Projects, q: Projects, id: Id, x: Id, n: nat)
    requires q.Keys == p.Keys && forall y :: y in p && y != id ==> q[y].parent == p[y].parent
    requires Chain(p, x, n) && !Beneath(p, id, x)
    ensures Chain(q, x, n)
    decreases n
  {
    assert x == id ==> x in Fringe(p, p.Keys, id, 0);
    if p[x].parent.Some? {
      if Beneath(p, id, p[x].parent.value) { BeneathChild(p, id, x); }
      ChainAvoids(p, q, id, p[x].parent.value, n - 1);
    }
  }

  lemma {:induction false} ChainAfterMove(p: Projects, q: Projects, id: Id, x: Id, n: nat)
    requires q.Keys == p.Keys && forall y :: y in p && y != id ==> q[y].parent == p[y].parent
    requires Chain(p, x, n) && id in p && Rooted(q, id)
    ensures Rooted(q, x)
    decreases n
  {
    if x != id {
      if p[x].parent.Some? {
        ChainAfterMove(p, q, id, p[x].parent.value, n - 1);
        var m: nat :| Chain(q, p[x].parent.value, m);
        assert Chain(q, x, m + 1);
      } else {
        assert Chain(q, x, 1);
      }
    }
  }

  lemma {:induction false} FringeSurvives(p: Projects, q: Projects, id: Id, d: nat, x: Id, k: nat)
    requires q.Keys == p.Keys && forall y :: y in p && y != id ==> q[y].parent == p[y].parent
    requires x in Fringe(p, p.Keys, id, d) && Chain(p, id, k)
    ensures x in Fringe(q, q.Keys, id, d)
    decreases d
  {
    if d > 0 {
      FringeChain(p, p.Keys, id, d, x, k);
      if x == id { ChainUnique(p, id, k, k + d); }
      FringeSurvives(p, q, id, d - 1, p[x].parent.value, k);
    }
  }

  /** Giving `id` the parent `up` keeps the forest acyclic exactly when `up` is not `id`
      nor anywhere beneath it. */
  lemma ReparentExact(p: Projects, id: Id, row: Project, up: Id)
    requires Acyclic(p) && id in p && up in p && row.parent == Some(up)
    ensures Acyclic(p[id := row]) <==> !Beneath(p, id, up)
  {
    var q := p[id := row];
    if Beneath(p, id, up) {
      var d: nat :| up in Fringe(p, p.Keys, id, d);
      assert Rooted(p, id);
      var k: nat :| Chain(p, id, k);
      FringeSurvives(p, q, id, d, up, k);
      if Acyclic(q) {
        assert Rooted(q, id);
        var n: nat :| Chain(q, id, n);
        RootOfFringe(q, q.Keys, id, d, up, n - 1);
        ChainUnique(q, id, n, n - 1 - d);
      }
    } else {
      assert Rooted(p, up);
      var n: nat :| Chain(p, up, n);
      ChainAvoids(p, q, id, up, n);
      assert Chain(q, id, n + 1);
      MovedIsAcyclic(p, q, id);
    }
  }

  lemma MovedIsAcyclic(p: Projects, q: Projects, id: Id)
    requires q.Keys == p.Keys && forall y :: y in p && y != id ==> q[y].parent == p[y].parent
    requires Acyclic(p) && id in p && Rooted(q, id)
    ensures Acyclic(q)
  {
    forall x | x in q ensures Rooted(q, x) {
      assert Rooted(p, x);
      var n: nat :| Chain(p, x, n);
      ChainAfterMove(p, q, id, x, n);
    }
  }
}
