/** What goes wrong past the depth guards, on databases that have every invariant. */
module Deep {
  import opened Base
  import opened Ids
  import opened Levels
  import opened Naming
  import opened Tables
  import opened Access
  import opened Files
  import opened Schema
  import opened Indexing
  import opened ProjectJobs
  import opened Maintenance
  import opened Purge

  const ADMIN: Actor := Actor(0, Admin)

  /** Only these projects, indexed as the service indexes them. */
  function ProjectsOnly(p: Projects): Database { EMPTY.(projects := p, projectIndex := ProjectEntries(p)) }

  /** A line of projects, live or deleted together, has every invariant. */
  ghost predicate IsLine(p: Projects, n: nat, stamp: Option<Stamp>) {
    (forall id: Id :: id in p <==> id < n)
    && forall id :: id in p ==> p[id] == LineRow(id).(deletedAt := stamp, deletedBy := None)
  }

  lemma {:induction false} LineChains(p: Projects, n: nat, stamp: Option<Stamp>, id: Id)
    requires IsLine(p, n, stamp) && id < n
    ensures Chain(p, id, id + 1)
    decreases id
  {
    if id > 0 { LineChains(p, n, stamp, id - 1); }
  }

  lemma LineHasInv(p: Projects, n: nat, stamp: Option<Stamp>, sha: Bytes -> Digest)
    requires IsLine(p, n, stamp)
    ensures Inv(ProjectsOnly(p), sha)
  {
    forall id | id in p ensures Rooted(p, id) { LineChains(p, n, stamp, id); }
    LineNames(p, n, stamp);
    LineTree(p, n, stamp);
    EmptyInv(sha);
    forall id ensures Mirrors(map[], map[], map[], {}, id) {}
  }

  lemma LineNames(p: Projects, n: nat, stamp: Option<Stamp>)
    requires IsLine(p, n, stamp)
    ensures ProjectNames(p) && ConversationNames(p, map[])
  {
    forall a, b | a in p && b in p && a != b ensures !SameLevel(p, a, b) {
      assert p[a].parent != p[b].parent;
    }
  }

  lemma LineTree(p: Projects, n: nat, stamp: Option<Stamp>)
    requires IsLine(p, n, stamp)
    ensures ProjectsLinked(p) && ConversationsLinked(p, map[]) && ProjectStamps(p) && ConversationStamps(p, map[]) && ColumnsOk(p, map[])
  {}

  // -------------------------------------------------------------- live line

  /** 202 live projects, each below the one before. */
  const LINE: Database := ProjectsOnly(Line(MAX_DEPTH + 2))

  lemma LineIsLine(n: nat)
    ensures IsLine(Line(n), n, None)
  {}

  /** An administrator may delete the first project of the line, and the deletion leaves a
      live project under a deleted one. */
  lemma DeepDeletion(sha: Bytes -> Digest, now: Stamp)
    ensures Inv(LINE, sha) && ClockPast(LINE, now) && DeleteProjectVerdict(LINE, ADMIN, 0, 1) == Done
    ensures !Inv(DeleteProjectEffect(LINE, 0, now, ADMIN.id), sha)
  {
    hide Inv;
    var line, n := Line(MAX_DEPTH + 2), MAX_DEPTH + 2;
    LineIsLine(n);
    LineHasInv(line, n, None, sha);
    assert LiveProject(line, 0);
    LineFringe(n, LiveProjects(line), MAX_DEPTH + 1, MAX_DEPTH + 1);
    DeleteProjectExact(LINE, sha, 0, now, ADMIN.id);
  }

  lemma DeepMoveAccepted(p: Projects, n: nat)
    requires p == Line(n) && n == MAX_DEPTH + 2
    ensures MoveProjectVerdict(ProjectsOnly(p), ADMIN, 0, Some(1), Some(n - 1)) == Done
  {
    hide ProjectEntries, Subtree, ProjectNameTaken;
    assert LiveProject(p, 0) && LiveProject(p, n - 1);
    LineIsLine(n);
    LineSubtree(n, p.Keys, n - 1);
    NobodyBelow(p, n, None, p[0].name);
  }

  lemma LastIsBeneath(n: nat)
    requires n > 1
    ensures Beneath(Line(n), 0, n - 1)
  {
    LineFringe(n, Line(n).Keys, n - 1, n - 1);
  }

  /** An administrator may move the first project of the line below the last one, and the
      move closes a cycle. */
  lemma DeepMove(sha: Bytes -> Digest)
    ensures var last := MAX_DEPTH + 1;
            Inv(LINE, sha) && Levels.Lists(ProjectLevel(LINE.projects, Some(last)), [])
            && MoveProjectVerdict(LINE, ADMIN, 0, Some(1), Some(last)) == Done
            && !Inv(MoveProjectEffect(LINE, 0, Some(last), None, []), sha)
  {
    hide Inv, MoveProjectVerdict, MoveProjectEffect, ProjectEntries, ProjectLevel, Beneath;
    var line, n, last := Line(MAX_DEPTH + 2), MAX_DEPTH + 2, MAX_DEPTH + 1;
    LineIsLine(n);
    LineHasInv(line, n, None, sha);
    DeepMoveAccepted(line, n);
    NobodyBelow(line, n, None, "");
    LastIsBeneath(n);
    MoveProjectExact(LINE, sha, ADMIN, 0, Some(1), Some(last), None, []);
  }

  lemma NobodyBelow(p: Projects, n: nat, stamp: Option<Stamp>, name: string)
    requires IsLine(p, n, stamp) && n > 0
    ensures ProjectLevel(p, Some(n - 1)) == map[] && !ProjectNameTaken(p, Some(n - 1), name, Some(0))
  {}

  // -------------------------------------------------------------- dead line

  /** 502 projects, each below the one before, all deleted at time 0. */
  function DeadLine(n: nat): Projects { map id | id in Line(n) :: LineRow(id).(deletedAt := Some(0), deletedBy := None) }

  const DEAD: Database := ProjectsOnly(DeadLine(DEPTH_GUARD + 2))

  lemma DeadIsLine(n: nat)
    ensures IsLine(DeadLine(n), n, Some(0))
  {}

  /** An administrator may purge the deleted line, and with some listing of its rows a
      parent goes before its child. */
  lemma DeepPurge(sha: Bytes -> Digest, retention: int) returns (order: seq<Id>, n: nat)
    requires retention >= MIN_RETENTION_DAYS
    ensures Inv(DEAD, sha) && PurgeVerdict(ADMIN, retention) == Done
    ensures IdSet(order) == DueProjects(DEAD.projects, 0) && n <= |DeepestFirst(DEAD.projects, order)|
    ensures !LinkedRows(At(DEAD, 0, order, DeletingProjects(n)))
  {
    hide Inv, DeepestFirst, DueProjects, IsLine, ProjectEntries, At;
    var p, size := DeadLine(DEPTH_GUARD + 2), DEPTH_GUARD + 2;
    DeadIsLine(size);
    LineHasInv(p, size, Some(0), sha);
    DeadIsDue(p, size);
    order, n := UnsafeListing(p, size);
    ProjectsAt(DEAD, 0, order, n);
  }

  lemma ProjectsAt(d: Database, cutoff: Stamp, order: seq<Id>, n: nat)
    requires n <= |DeepestFirst(d.projects, order)|
    ensures At(d, cutoff, order, DeletingProjects(n)).projects == d.projects - IdSet(DeepestFirst(d.projects, order)[..n])
  {}

  lemma UnsafeListing(p: Projects, size: nat) returns (order: seq<Id>, n: nat)
    requires IsLine(p, size, Some(0)) && size == DEPTH_GUARD + 2
    ensures IdSet(order) == p.Keys && n <= |DeepestFirst(p, order)|
    ensures !ProjectsLinked(p - IdSet(DeepestFirst(p, order)[..n]))
  {
    hide DeepestFirst, ProjectsLinked, IdSet, Countable, Acyclic, ClosedDown;
    DeadIsDue(p, size);
    DeadIsUncountable(p, size);
    DeepestFirstExact(p, p.Keys);
    order :| IdSet(order) == p.Keys && !ChildrenFirst(p, DeepestFirst(p, order));
    n :| n <= |DeepestFirst(p, order)| && !ProjectsLinked(p - IdSet(DeepestFirst(p, order)[..n]));
  }

  lemma DeadIsDue(p: Projects, n: nat)
    requires IsLine(p, n, Some(0))
    ensures DueProjects(p, 0) == p.Keys && ClosedDown(p, p.Keys) && Acyclic(p) && ProjectsLinked(p)
  {
    forall id | id in p ensures Rooted(p, id) { LineChains(p, n, Some(0), id); }
    LineTree(p, n, Some(0));
  }

  /** The last row's parent is 500 links down: its level is counted as far as the guard. */
  lemma DeadIsUncountable(p: Projects, n: nat)
    requires IsLine(p, n, Some(0)) && n == DEPTH_GUARD + 2
    ensures !Countable(p, p.Keys)
  {
    LineChains(p, n, Some(0), n - 2);
    LevelCounts(p, n - 2, n - 1, DEPTH_GUARD);
    assert p[n - 1].parent == Some(n - 2);
  }
}
