/** Who may see and change which project (`tree_agent/server/services/access.py`), and the
  forest built from it (`TreeService.tree`).

  The rule is the nearest membership on the way to the root. One algorithm climbs from a
  single project, the other passes down from the roots over all live projects; they are
  proved to agree on every project with at most `MAX_DEPTH` rows above and including it. */
module Access {
  import opened Base
  import opened Tables

  // ------------------------------------------------------------ upward walk

  /** A read-only account is capped at viewer whatever its memberships say. */
  function Cap(actor: Actor, permission: Option<Permission>): Option<Permission> {
    if permission == None then None
    else if actor.role == ReadOnly && permission != Some(Viewer) then Some(Viewer)
    else permission
  }

  /** The first membership met on the nearest `n` rows from `id` towards the root. */
  function Nearest(projects: Projects, grants: Grants, user: Id, id: Id, n: nat): Option<Permission>
    decreases n
  {
    if n == 0 || id !in projects then None
    else if (id, user) in grants then Some(grants[(id, user)])
    else match projects[id].parent
         case None => None
         case Some(up) => Nearest(projects, grants, user, up, n - 1)
  }

  function PermissionFor(projects: Projects, grants: Grants, actor: Actor, id: Id): Option<Permission> {
    if !LiveProject(projects, id) then None
    else if actor.role == Admin then Some(Owner)
    else Cap(actor, Nearest(projects, grants, actor.id, id, MAX_DEPTH))
  }

  function RequireRead(projects: Projects, grants: Grants, actor: Actor, id: Id): Outcome {
    if PermissionFor(projects, grants, actor, id) == None then Failed(NotFound) else Done
  }

  function RequireWrite(projects: Projects, grants: Grants, actor: Actor, id: Id): Outcome {
    match PermissionFor(projects, grants, actor, id)
    case None => Failed(NotFound)
    case Some(Viewer) => Failed(PermissionDenied)
    case Some(_) => Done
  }

  function RequireOwner(projects: Projects, grants: Grants, actor: Actor, id: Id): Outcome {
    match PermissionFor(projects, grants, actor, id)
    case None => Failed(NotFound)
    case Some(Owner) => Done
    case Some(_) => Failed(PermissionDenied)
  }

  /** No memberships and no way out: a climb that entered such a set finds nothing. */
  ghost predicate Barren(projects: Projects, grants: Grants, user: Id, ids: set<Id>) {
    forall id :: id in ids ==>
      id in projects && (id, user) !in grants
      && (projects[id].parent.Some? ==> projects[id].parent.value in ids)
  }

  lemma {:induction false} BarrenFindsNothing(projects: Projects, grants: Grants, user: Id, ids: set<Id>, id: Id, n: nat)
    requires Barren(projects, grants, user, ids) && id in ids
    ensures Nearest(projects, grants, user, id, n) == None
    decreases n
  {
    if n > 0 && projects[id].parent.Some? {
      BarrenFindsNothing(projects, grants, user, ids, projects[id].parent.value, n - 1);
    }
  }

  /** `permission_for`: the loop stops early on a cycle, where it could only go round. */
  method FindPermission(projects: Projects, grants: Grants, actor: Actor, id: Id) returns (r: Option<Permission>)
    ensures r == PermissionFor(projects, grants, actor, id)
  {
    if actor.role == Admin {
      return if LiveProject(projects, id) then Some(Owner) else None;
    }
    var seen: set<Id> := {};
    var current := Some(id);
    var first := true;
    var depth := 0;
    while current.Some? && current.value !in seen && depth < MAX_DEPTH
      invariant depth <= MAX_DEPTH && first == (depth == 0)
      invariant first ==> current == Some(id)
      invariant !first ==> LiveProject(projects, id)
      invariant forall x :: x in seen ==>
                  x in projects && (x, actor.id) !in grants
                  && (projects[x].parent.Some? ==> projects[x].parent.value in seen || current == projects[x].parent)
      invariant Nearest(projects, grants, actor.id, id, MAX_DEPTH)
                == if current == None then None else Nearest(projects, grants, actor.id, current.value, MAX_DEPTH - depth)
      decreases MAX_DEPTH - depth
    {
      seen := seen + {current.value};
      depth := depth + 1;
      if current.value !in projects {
        return None;
      }
      var row := projects[current.value];
      if first {
        first := false;
        if row.deletedAt != None {
          return None;
        }
      }
      if (current.value, actor.id) in grants {
        return Cap(actor, Some(grants[(current.value, actor.id)]));
      }
      current := row.parent;
    }
    if current.Some? && current.value in seen {
      BarrenFindsNothing(projects, grants, actor.id, seen, current.value, MAX_DEPTH - depth);
    }
    return None;
  }

  // ---------------------------------------------------------- downward pass

  ghost predicate Enumerates(order: seq<Id>, ids: set<Id>) {
    (forall i, j :: 0 <= i < j < |order| ==> order[i] != order[j]) && (forall id :: id in order <==> id in ids)
  }

  /** `by_parent.setdefault(row["parent_id"], []).append(row)` over the listed rows. */
  method GroupByParent(projects: Projects, order: seq<Id>) returns (byParent: map<Option<Id>, seq<Id>>)
    requires forall id :: id in order ==> id in projects
    requires forall i, j :: 0 <= i < j < |order| ==> order[i] != order[j]
    ensures forall p :: p in byParent ==> Enumerates(byParent[p], set id | id in order && projects[id].parent == p)
    ensures forall id :: id in order ==> projects[id].parent in byParent
  {
    byParent := map[];
    for n := 0 to |order|
      invariant forall p :: p in byParent ==> Enumerates(byParent[p], set id | id in order[..n] && projects[id].parent == p)
      invariant forall id :: id in order[..n] ==> projects[id].parent in byParent
    {
      var p := projects[order[n]].parent;
      var group := if p in byParent then byParent[p] else [];
      assert order[..n + 1] == order[..n] + [order[n]];
      assert Enumerates(group, set id | id in order[..n] && projects[id].parent == p);
      GroupGrows(projects, order, n, p, group);
      byParent := byParent[p := group + [order[n]]];
      forall q | q in byParent && q != p
        ensures Enumerates(byParent[q], set id | id in order[..n + 1] && projects[id].parent == q)
      {
        assert (set id | id in order[..n + 1] && projects[id].parent == q)
            == (set id | id in order[..n] && projects[id].parent == q);
      }
    }
    assert order[..|order|] == order;
  }

  lemma GroupGrows(projects: Projects, order: seq<Id>, n: nat, p: Option<Id>, group: seq<Id>)
    requires n < |order| && forall id :: id in order ==> id in projects
    requires forall i, j :: 0 <= i < j < |order| ==> order[i] != order[j]
    requires projects[order[n]].parent == p
    requires Enumerates(group, set id | id in order[..n] && projects[id].parent == p)
    ensures Enumerates(group + [order[n]], set id | id in order[..n + 1] && projects[id].parent == p)
  {
    assert order[..n + 1] == order[..n] + [order[n]];
    assert order[n] !in order[..n];
    forall i | 0 <= i < |group| ensures group[i] != order[n] {
      assert group[i] in group;
    }
  }

  /** Live rows have live parents: kept by every operation of the service. */
  ghost predicate LiveAbove(projects: Projects) {
    forall id :: LiveProject(projects, id) && projects[id].parent.Some? ==> LiveProject(projects, projects[id].parent.value)
  }

  /** Following parents from `id` meets exactly `n` rows, all live, and ends at a root. */
  predicate LiveChain(projects: Projects, id: Id, n: nat)
    decreases n
  {
    LiveProject(projects, id) && n > 0
    && match projects[id].parent
       case None => n == 1
       case Some(up) => LiveChain(projects, up, n - 1)
  }

  lemma {:induction false} LiveChainIsChain(projects: Projects, id: Id, n: nat)
    requires LiveChain(projects, id, n)
    ensures Chain(projects, id, n)
    decreases n
  {
    if projects[id].parent.Some? { LiveChainIsChain(projects, projects[id].parent.value, n - 1); }
  }

  /** Where live rows have live parents, a live row's chain is live throughout. */
  lemma {:induction false} ChainIsLive(projects: Projects, id: Id, n: nat)
    requires LiveAbove(projects) && LiveProject(projects, id) && Chain(projects, id, n)
    ensures LiveChain(projects, id, n)
    decreases n
  {
    if projects[id].parent.Some? { ChainIsLive(projects, projects[id].parent.value, n - 1); }
  }

  datatype Frame = Frame(parent: Option<Id>, inherited: Option<Permission>, depth: nat)

  /** What the downward pass gives a live project with `n` rows up to its root. */
  function Downward(projects: Projects, grants: Grants, actor: Actor, id: Id, n: nat): Option<Permission> {
    if actor.role == Admin then Some(Owner)
    else if n > MAX_DEPTH + 1 then None
    else Cap(actor, Nearest(projects, grants, actor.id, id, n))
  }

  function Lookup<V>(m: map<Id, V>, id: Id): Option<V> { if id in m then Some(m[id]) else None }

  ghost predicate FrameOk(projects: Projects, grants: Grants, user: Id, f: Frame, done: set<Id>) {
    match f.parent
    case None => f.inherited == None && f.depth == 0
    case Some(q) => q in done && LiveChain(projects, q, f.depth) && f.inherited == Nearest(projects, grants, user, q, f.depth)
  }

  ghost predicate OnStack(stack: seq<Frame>, parent: Option<Id>) {
    exists i :: 0 <= i < |stack| && stack[i].parent == parent
  }

  /** The walk refuses to go below a row more than `MAX_DEPTH` rows deep. */
  ghost predicate TooDeep(projects: Projects, id: Id) {
    exists n: nat :: n > MAX_DEPTH && LiveChain(projects, id, n)
  }

  /** The rows the pass can reach: live up to the root, at most one row past the guard. */
  ghost predicate Reachable(projects: Projects, id: Id) {
    exists n: nat :: n <= MAX_DEPTH + 1 && LiveChain(projects, id, n)
  }

  /** What the visited rows have been given. */
  ghost predicate Settled(projects: Projects, grants: Grants, actor: Actor, visible: map<Id, Permission>, done: set<Id>) {
    visible.Keys <= done && (forall id :: id in done ==> Reachable(projects, id))
    && forall id, n: nat :: id in done && LiveChain(projects, id, n) ==>
         n <= MAX_DEPTH + 1 && Lookup(visible, id) == Cap(actor, Nearest(projects, grants, actor.id, id, n))
  }

  /** Every live row not yet visited waits for a frame, or for its parent. */
  ghost predicate Pending(projects: Projects, live: set<Id>, stack: seq<Frame>, done: set<Id>) {
    forall id :: id in live && id !in done && id in projects ==>
      OnStack(stack, projects[id].parent)
      || (projects[id].parent.Some? && (projects[id].parent.value !in done || TooDeep(projects, projects[id].parent.value)))
  }

  predicate ParentIn(projects: Projects, id: Id, ids: set<Id>)
    requires id in projects
  {
    projects[id].parent.Some? ==> projects[id].parent.value in ids
  }

  ghost predicate Untouched(projects: Projects, live: set<Id>, stack: seq<Frame>, done: set<Id>) {
    (forall i, j :: 0 <= i < j < |stack| ==> stack[i].parent != stack[j].parent)
    && (forall i, id :: 0 <= i < |stack| && id in live && id in projects && projects[id].parent == stack[i].parent ==> id !in done)
    && (forall id :: id in done ==> id in live && id in projects && ParentIn(projects, id, done))
  }

  function Inherit(grants: Grants, user: Id, id: Id, inherited: Option<Permission>): Option<Permission> {
    if (id, user) in grants then Some(grants[(id, user)]) else inherited
  }

  function FramesFor(grants: Grants, user: Id, kids: seq<Id>, f: Frame): (frames: seq<Frame>)
    ensures |frames| == |kids|
  {
    seq(|kids|, j requires 0 <= j < |kids| => Frame(Some(kids[j]), Inherit(grants, user, kids[j], f.inherited), f.depth + 1))
  }


  lemma SettleChild(projects: Projects, grants: Grants, actor: Actor, visible: map<Id, Permission>,
                    done: set<Id>, f: Frame, kid: Id, after: map<Id, Permission>)
    requires Settled(projects, grants, actor, visible, done)
    requires FrameOk(projects, grants, actor.id, f, done) && f.depth <= MAX_DEPTH
    requires LiveProject(projects, kid) && projects[kid].parent == f.parent && kid !in done
    requires var given := Cap(actor, Inherit(grants, actor.id, kid, f.inherited));
             after == if given == None then visible else visible[kid := given.value]
    ensures Settled(projects, grants, actor, after, done + {kid})
  {
    assert LiveChain(projects, kid, f.depth + 1);
    assert Reachable(projects, kid);
    forall id, n: nat | id in done + {kid} && LiveChain(projects, id, n)
      ensures n <= MAX_DEPTH + 1 && Lookup(after, id) == Cap(actor, Nearest(projects, grants, actor.id, id, n))
    {
      if id == kid { LiveChainUnique(projects, kid, n, f.depth + 1); }
    }
  }

  lemma LiveChainUnique(projects: Projects, id: Id, m: nat, n: nat)
    requires LiveChain(projects, id, m) && LiveChain(projects, id, n)
    ensures m == n
  {
    LiveChainIsChain(projects, id, m);
    LiveChainIsChain(projects, id, n);
    ChainUnique(projects, id, m, n);
  }

  /** Replacing a frame by the frames of its children leaves nothing behind. */
  lemma ChildrenTakeOver(projects: Projects, grants: Grants, user: Id, live: set<Id>,
                         stack: seq<Frame>, done: set<Id>, kids: seq<Id>)
    requires |stack| > 0 && stack[|stack| - 1].depth <= MAX_DEPTH
    requires Untouched(projects, live, stack, done) && Pending(projects, live, stack, done)
    requires forall i :: 0 <= i < |stack| ==> FrameOk(projects, grants, user, stack[i], done)
    requires live == LiveProjects(projects)
    requires Enumerates(kids, set id | id in live && id in projects && projects[id].parent == stack[|stack| - 1].parent)
    ensures var f, base := stack[|stack| - 1], stack[..|stack| - 1];
            var after, all := base + FramesFor(grants, user, kids, f), done + set id | id in kids;
            Untouched(projects, live, after, all) && Pending(projects, live, after, all)
            && forall i :: 0 <= i < |after| ==> FrameOk(projects, grants, user, after[i], all)
  {
    var f, base := stack[|stack| - 1], stack[..|stack| - 1];
    var frames := FramesFor(grants, user, kids, f);
    var after, all := base + frames, done + set id | id in kids;
    forall j | 0 <= j < |kids|
      ensures kids[j] in live && projects[kids[j]].parent == f.parent && kids[j] !in done && kids[j] in all
      ensures FrameOk(projects, grants, user, frames[j], all)
    {
      assert kids[j] in kids;
    }
    assert forall i :: 0 <= i < |after| ==> FrameOk(projects, grants, user, after[i], all);
    PendingAfter(projects, grants, user, live, stack, done, kids);
  }


  lemma PendingAfter(projects: Projects, grants: Grants, user: Id, live: set<Id>,
                     stack: seq<Frame>, done: set<Id>, kids: seq<Id>)
    requires |stack| > 0 && Pending(projects, live, stack, done)
    requires Enumerates(kids, set id | id in live && id in projects && projects[id].parent == stack[|stack| - 1].parent)
    ensures Pending(projects, live, stack[..|stack| - 1] + FramesFor(grants, user, kids, stack[|stack| - 1]),
                    done + set id | id in kids)
  {
    var f, base := stack[|stack| - 1], stack[..|stack| - 1];
    var frames := FramesFor(grants, user, kids, f);
    var after, all := base + frames, done + set id | id in kids;
    forall id | id in live && id !in all && id in projects
      ensures OnStack(after, projects[id].parent)
              || (projects[id].parent.Some? && (projects[id].parent.value !in all || TooDeep(projects, projects[id].parent.value)))
    {
      var up := projects[id].parent;
      assert id !in kids;
      if OnStack(stack, up) {
        var i :| 0 <= i < |stack| && stack[i].parent == up;
        assert i < |base|;
        assert after[i].parent == up;
      } else if up.value in kids {
        var j :| 0 <= j < |kids| && kids[j] == up.value;
        assert after[|base| + j].parent == up;
      }
    }
  }

  lemma {:induction false} AllSettled(projects: Projects, live: set<Id>, done: set<Id>, id: Id, n: nat)
    requires live == LiveProjects(projects) && Pending(projects, live, [], done)
    requires LiveChain(projects, id, n) && n <= MAX_DEPTH + 1
    ensures id in done
    decreases n
  {
    if projects[id].parent.Some? {
      var up := projects[id].parent.value;
      AllSettled(projects, live, done, up, n - 1);
      if TooDeep(projects, up) {
        var d: nat :| d > MAX_DEPTH && LiveChain(projects, up, d);
        LiveChainUnique(projects, up, d, n - 1);
      }
    }
  }

  lemma KidsAreChildren(projects: Projects, order: seq<Id>, byParent: map<Option<Id>, seq<Id>>, p: Option<Id>, kids: seq<Id>)
    requires Enumerates(order, LiveProjects(projects))
    requires forall p :: p in byParent ==> Enumerates(byParent[p], set id | id in order && projects[id].parent == p)
    requires forall id :: id in order ==> projects[id].parent in byParent
    requires kids == if p in byParent then byParent[p] else []
    ensures Enumerates(kids, set id | id in LiveProjects(projects) && id in projects && projects[id].parent == p)
  {
    if p in byParent {
      assert Enumerates(kids, set id | id in order && projects[id].parent == p);
    }
  }

  /** The inner loop of `visible_projects`: one row after another of one parent. */
  method PassDown(projects: Projects, grants: Grants, actor: Actor, f: Frame, kids: seq<Id>,
                  base: seq<Frame>, visibleIn: map<Id, Permission>, ghost before: set<Id>)
    returns (visible: map<Id, Permission>, stack: seq<Frame>)
    requires Settled(projects, grants, actor, visibleIn, before)
    requires FrameOk(projects, grants, actor.id, f, before) && f.depth <= MAX_DEPTH
    requires forall i, j :: 0 <= i < j < |kids| ==> kids[i] != kids[j]
    requires forall id :: id in kids ==> LiveProject(projects, id) && projects[id].parent == f.parent && id !in before
    ensures Settled(projects, grants, actor, visible, before + set id | id in kids)
    ensures stack == base + FramesFor(grants, actor.id, kids, f)
  {
    hide Settled, LiveChain, Nearest;
    visible, stack := visibleIn, base;
    ghost var done := before;
    for k := 0 to |kids|
      invariant done == before + set id | id in kids[..k]
      invariant stack == base + FramesFor(grants, actor.id, kids, f)[..k]
      invariant Settled(projects, grants, actor, visible, done)
    {
      assert kids[k] in kids;
      assert kids[..k + 1] == kids[..k] + [kids[k]];
      var permission := if (kids[k], actor.id) in grants then Some(grants[(kids[k], actor.id)]) else f.inherited;
      ghost var was := visible;
      if permission.Some? {
        visible := visible[kids[k] := Cap(actor, permission).value];
      }
      SettleChild(projects, grants, actor, was, done, f, kids[k], visible);
      ghost var frames := FramesFor(grants, actor.id, kids, f);
      assert frames[k] == Frame(Some(kids[k]), permission, f.depth + 1) && frames[..k + 1] == frames[..k] + [frames[k]];
      stack := stack + [Frame(Some(kids[k]), permission, f.depth + 1)];
      done := done + {kids[k]};
    }
    assert kids[..|kids|] == kids;
  }

  ghost predicate PassState(projects: Projects, grants: Grants, actor: Actor, stack: seq<Frame>,
                            visible: map<Id, Permission>, done: set<Id>) {
    var live := LiveProjects(projects);
    Settled(projects, grants, actor, visible, done)
    && Untouched(projects, live, stack, done) && Pending(projects, live, stack, done)
    && forall i :: 0 <= i < |stack| ==> FrameOk(projects, grants, actor.id, stack[i], done)
  }

  /** One turn of the outer loop: pop a frame, visit its children unless it is too deep. */
  method VisitFrame(projects: Projects, grants: Grants, actor: Actor, order: seq<Id>,
                    byParent: map<Option<Id>, seq<Id>>, stackIn: seq<Frame>, visibleIn: map<Id, Permission>, ghost before: set<Id>)
    returns (stack: seq<Frame>, visible: map<Id, Permission>, ghost done: set<Id>)
    requires Enumerates(order, LiveProjects(projects))
    requires forall p :: p in byParent ==> Enumerates(byParent[p], set id | id in order && projects[id].parent == p)
    requires forall id :: id in order ==> projects[id].parent in byParent
    requires stackIn != [] && PassState(projects, grants, actor, stackIn, visibleIn, before)
    ensures PassState(projects, grants, actor, stack, visible, done)
    ensures |LiveProjects(projects) - done| < |LiveProjects(projects) - before|
            || (|LiveProjects(projects) - done| == |LiveProjects(projects) - before| && |stack| < |stackIn|)
  {
    ghost var live := LiveProjects(projects);
    var f := stackIn[|stackIn| - 1];
    var base := stackIn[..|stackIn| - 1];
    if f.depth > MAX_DEPTH {
      SkipDeep(projects, grants, actor.id, live, stackIn, before);
      return base, visibleIn, before;
    }
    var kids := if f.parent in byParent then byParent[f.parent] else [];
    KidsAreChildren(projects, order, byParent, f.parent, kids);
    ChildrenTakeOver(projects, grants, actor.id, live, stackIn, before, kids);
    Shrinks(live, before, kids, base + FramesFor(grants, actor.id, kids, f), base);
    visible, stack := PassDown(projects, grants, actor, f, kids, base, visibleIn, before);
    done := before + set id | id in kids;
  }

  lemma PassBegins(projects: Projects, grants: Grants, actor: Actor)
    ensures PassState(projects, grants, actor, [Frame(None, None, 0)], map[], {})
  {
    assert [Frame(None, None, 0)][0].parent == None;
  }

  lemma PassEnds(projects: Projects, grants: Grants, actor: Actor, visible: map<Id, Permission>, done: set<Id>)
    requires PassState(projects, grants, actor, [], visible, done) && actor.role != Admin
    ensures visible.Keys <= LiveProjects(projects) && forall id :: id in visible ==> Reachable(projects, id)
    ensures forall id, n: nat :: LiveChain(projects, id, n) ==>
              Lookup(visible, id) == Downward(projects, grants, actor, id, n)
  {
    forall id, n: nat | LiveChain(projects, id, n)
      ensures Lookup(visible, id) == Downward(projects, grants, actor, id, n)
    {
      if n <= MAX_DEPTH + 1 { AllSettled(projects, LiveProjects(projects), done, id, n); }
    }
  }

  /** What the downward pass gives the rows that are live up to their root. */
  ghost predicate OnePass(projects: Projects, grants: Grants, actor: Actor, visible: map<Id, Permission>) {
    visible.Keys <= LiveProjects(projects)
    && forall id, n: nat :: LiveChain(projects, id, n) ==> Lookup(visible, id) == Downward(projects, grants, actor, id, n)
  }

  /** `visible_projects`, on any table: the downward pass gives every row that is live up to
      its root the `Downward` value, and nothing to a live row under a deleted one or on a
      cycle, unless the caller is an administrator. */
  method VisibleProjects(projects: Projects, grants: Grants, actor: Actor, order: seq<Id>)
    returns (visible: map<Id, Permission>)
    requires Enumerates(order, LiveProjects(projects))
    ensures OnePass(projects, grants, actor, visible)
    ensures actor.role != Admin ==> forall id :: id in visible ==> Reachable(projects, id)
    ensures actor.role == Admin ==> visible == map id | id in LiveProjects(projects) :: Owner
  {
    if actor.role == Admin {
      return AllOwned(projects, order);
    }
    visible := PassFromTop(projects, grants, actor, order);
  }

  /** An administrator owns every listed row. */
  function AllOwned(projects: Projects, order: seq<Id>): (visible: map<Id, Permission>)
    requires Enumerates(order, LiveProjects(projects))
    ensures visible == map id | id in LiveProjects(projects) :: Owner
  {
    map id | id in order :: Owner
  }

  /** The stack loop. */
  method PassFromTop(projects: Projects, grants: Grants, actor: Actor, order: seq<Id>) returns (visible: map<Id, Permission>)
    requires Enumerates(order, LiveProjects(projects)) && actor.role != Admin
    ensures visible.Keys <= LiveProjects(projects) && forall id :: id in visible ==> Reachable(projects, id)
    ensures forall id, n: nat :: LiveChain(projects, id, n) ==>
              Lookup(visible, id) == Downward(projects, grants, actor, id, n)
  {
    hide PassState, Reachable, Downward, LiveChain;
    var byParent := GroupByParent(projects, order);
    ghost var done: set<Id> := {};
    visible := map[];
    var stack := [Frame(None, None, 0)];
    PassBegins(projects, grants, actor);
    while stack != []
      invariant PassState(projects, grants, actor, stack, visible, done)
      decreases |LiveProjects(projects) - done|, |stack|
    {
      stack, visible, done := VisitFrame(projects, grants, actor, order, byParent, stack, visible, done);
    }
    PassEnds(projects, grants, actor, visible, done);
  }

  lemma SkipDeep(projects: Projects, grants: Grants, user: Id, live: set<Id>, stack: seq<Frame>, done: set<Id>)
    requires |stack| > 0 && stack[|stack| - 1].depth > MAX_DEPTH
    requires Untouched(projects, live, stack, done) && Pending(projects, live, stack, done)
    requires forall i :: 0 <= i < |stack| ==> FrameOk(projects, grants, user, stack[i], done)
    ensures Untouched(projects, live, stack[..|stack| - 1], done) && Pending(projects, live, stack[..|stack| - 1], done)
  {
    var f, base := stack[|stack| - 1], stack[..|stack| - 1];
    assert TooDeep(projects, f.parent.value);
    forall id | id in live && id !in done && id in projects
      ensures OnStack(base, projects[id].parent)
              || (projects[id].parent.Some? && (projects[id].parent.value !in done || TooDeep(projects, projects[id].parent.value)))
    {
      if OnStack(stack, projects[id].parent) && projects[id].parent != f.parent {
        var i :| 0 <= i < |stack| && stack[i].parent == projects[id].parent;
        assert base[i].parent == projects[id].parent;
      }
    }
  }

  lemma Shrinks(live: set<Id>, before: set<Id>, kids: seq<Id>, stack: seq<Frame>, base: seq<Frame>)
    requires |stack| == |base| + |kids| && forall id :: id in kids ==> id in live && id !in before
    ensures kids == [] ==> |stack| == |base| && live - (before + set id | id in kids) == live - before
    ensures kids != [] ==> |live - (before + set id | id in kids)| < |live - before|
  {
    if kids != [] {
      assert kids[0] in kids;
      SmallerSet(live - (before + set id | id in kids), live - before, kids[0]);
    }
  }

  lemma SmallerSet(a: set<Id>, b: set<Id>, x: Id)
    requires a <= b && x in b && x !in a
    ensures |a| < |b|
  {
    assert a <= b - {x};
    SubsetSize(a, b - {x});
  }

  // -------------------------------------------------------------- agreement

  lemma {:induction false} NearestIsComplete(projects: Projects, grants: Grants, user: Id, id: Id, n: nat, m: nat)
    requires Chain(projects, id, n) && n <= m
    ensures Nearest(projects, grants, user, id, m) == Nearest(projects, grants, user, id, n)
    decreases n
  {
    if projects[id].parent.Some? {
      NearestIsComplete(projects, grants, user, projects[id].parent.value, n - 1, m - 1);
    }
  }

  /** The row `k` links above `id`. */
  function Above(projects: Projects, id: Id, k: nat): Id
    decreases k
  {
    if k == 0 || id !in projects || projects[id].parent == None then id else Above(projects, projects[id].parent.value, k - 1)
  }

  /** The user holds no membership on any of the `m` rows from `id` upwards. */
  ghost predicate Ungranted(projects: Projects, grants: Grants, user: Id, id: Id, m: nat) {
    forall k: nat :: k < m ==> (Above(projects, id, k), user) !in grants
  }

  lemma UngrantedStep(projects: Projects, grants: Grants, user: Id, id: Id, up: Id, m: nat)
    requires id in projects && projects[id].parent == Some(up)
    ensures Ungranted(projects, grants, user, id, m + 1) <==> (id, user) !in grants && Ungranted(projects, grants, user, up, m)
  {
    assert Above(projects, id, 0) == id;
    assert forall k: nat :: Above(projects, id, k + 1) == Above(projects, up, k);
    if (id, user) !in grants && Ungranted(projects, grants, user, up, m) {
      forall k: nat | k < m + 1 ensures (Above(projects, id, k), user) !in grants {
        assert k > 0 ==> Above(projects, id, k) == Above(projects, up, k - 1);
      }
    }
    if Ungranted(projects, grants, user, id, m + 1) {
      forall k: nat | k < m ensures (Above(projects, up, k), user) !in grants {
        assert Above(projects, id, k + 1) == Above(projects, up, k);
      }
    }
  }

  lemma {:induction false} UngrantedFindsNothing(projects: Projects, grants: Grants, user: Id, id: Id, n: nat, m: nat)
    requires Chain(projects, id, n) && m <= n
    ensures Nearest(projects, grants, user, id, m) == None <==> Ungranted(projects, grants, user, id, m)
    decreases m
  {
    if m == 1 {
      assert Above(projects, id, 0) == id;
    } else if m > 1 {
      var up := projects[id].parent.value;
      UngrantedFindsNothing(projects, grants, user, up, n - 1, m - 1);
      UngrantedStep(projects, grants, user, id, up, m - 1);
    }
  }

  /** One more row changes what the climb finds exactly when that row alone holds a
      membership. */
  lemma {:induction false} OneRowFurther(projects: Projects, grants: Grants, user: Id, id: Id, n: nat, m: nat)
    requires Chain(projects, id, n) && m < n
    ensures Nearest(projects, grants, user, id, m + 1) == Nearest(projects, grants, user, id, m)
            <==> !(Nearest(projects, grants, user, id, m) == None && (Above(projects, id, m), user) in grants)
    decreases m
  {
    if m > 0 { OneRowFurther(projects, grants, user, projects[id].parent.value, n - 1, m - 1); }
  }

  lemma CapInjectsNone(actor: Actor, permission: Option<Permission>)
    ensures Cap(actor, permission) == None <==> permission == None
  {}

  /** The two algorithms agree on a live project of a caller other than an administrator
      exactly when it is at most `MAX_DEPTH` rows deep; or one row deeper, unless of the
      rows above it only the top one holds a membership of the caller; or deeper still and
      none of the nearest `MAX_DEPTH` rows holds one. */
  lemma WalksAgree(projects: Projects, grants: Grants, actor: Actor, id: Id, n: nat)
    requires LiveProject(projects, id) && Chain(projects, id, n)
    ensures Downward(projects, grants, actor, id, n) == PermissionFor(projects, grants, actor, id)
            <==> actor.role == Admin
                 || n <= MAX_DEPTH
                 || (n == MAX_DEPTH + 1
                     && !(Ungranted(projects, grants, actor.id, id, MAX_DEPTH)
                          && (Above(projects, id, MAX_DEPTH), actor.id) in grants))
                 || (n > MAX_DEPTH + 1 && Ungranted(projects, grants, actor.id, id, MAX_DEPTH))
  {
    hide Ungranted, Cap;
    var near := Nearest(projects, grants, actor.id, id, MAX_DEPTH);
    CapInjectsNone(actor, near);
    if n <= MAX_DEPTH {
      NearestIsComplete(projects, grants, actor.id, id, n, MAX_DEPTH);
    } else {
      UngrantedFindsNothing(projects, grants, actor.id, id, n, MAX_DEPTH);
      OneRowFurther(projects, grants, actor.id, id, n, MAX_DEPTH);
      CapInjectsNone(actor, Nearest(projects, grants, actor.id, id, MAX_DEPTH + 1));
      if near.Some? { NearestStays(projects, grants, actor.id, id, MAX_DEPTH, MAX_DEPTH + 1); }
    }
  }

  /** In a shallow forest the two algorithms are one: the pass maps a live project to a
      permission exactly when the climb returns it, and nothing else to anything. */
  lemma WalksMatch(projects: Projects, grants: Grants, actor: Actor, visible: map<Id, Permission>, id: Id)
    requires Acyclic(projects) && Shallow(projects) && LiveAbove(projects) && OnePass(projects, grants, actor, visible)
    ensures Lookup(visible, id) == PermissionFor(projects, grants, actor, id)
  {
    if LiveProject(projects, id) {
      assert Rooted(projects, id);
      var n: nat :| Chain(projects, id, n);
      ChainIsLive(projects, id, n);
      WalksAgree(projects, grants, actor, id, n);
    }
  }

  lemma {:induction false} NearestStays(projects: Projects, grants: Grants, user: Id, id: Id, m: nat, n: nat)
    requires Nearest(projects, grants, user, id, m).Some? && m <= n
    ensures Nearest(projects, grants, user, id, n) == Nearest(projects, grants, user, id, m)
    decreases m
  {
    if (id, user) !in grants { NearestStays(projects, grants, user, projects[id].parent.value, m - 1, n - 1); }
  }

  lemma {:induction false} LineNearest(n: nat, user: Id, id: Id, m: nat)
    requires id < n
    ensures Nearest(Line(n), map[(0, user) := Editor], user, id, m) == if m > id then Some(Editor) else None
    decreases m
  {
    if m > 0 && id > 0 { LineNearest(n, user, id - 1, m - 1); }
  }

  /** One row past the guard the algorithms part: the climb stops below the only grant,
      the downward pass still carries it. */
  lemma WalksPart(user: Id)
    ensures var line, grants, actor := Line(MAX_DEPTH + 1), map[(0, user) := Editor], Actor(user, Member);
            Chain(line, MAX_DEPTH, MAX_DEPTH + 1)
            && PermissionFor(line, grants, actor, MAX_DEPTH) == None
            && Downward(line, grants, actor, MAX_DEPTH, MAX_DEPTH + 1) == Some(Editor)
  {
    LineChain(MAX_DEPTH + 1, MAX_DEPTH);
    LineNearest(MAX_DEPTH + 1, user, MAX_DEPTH, MAX_DEPTH);
    LineNearest(MAX_DEPTH + 1, user, MAX_DEPTH, MAX_DEPTH + 1);
  }

  // ------------------------------------------------------------- the forest

  /** The listed rows the caller can see that hang below `parent`, in listed order. */
  function Shown(projects: Projects, visible: set<Id>, order: seq<Id>, parent: Option<Id>): seq<Id> {
    if order == [] then []
    else
      var id := order[|order| - 1];
      Shown(projects, visible, order[..|order| - 1], parent)
      + if id in visible && id in projects && Anchor(projects, visible, id) == parent then [id] else []
  }

  /** Where a visible project hangs: its parent, or the top level when that is hidden. */
  function Anchor(projects: Projects, visible: set<Id>, id: Id): Option<Id>
    requires id in projects
  {
    var up := projects[id].parent;
    if up.Some? && up.value in visible then up else None
  }

  lemma ShownGrows(projects: Projects, visible: set<Id>, order: seq<Id>, n: nat)
    requires n < |order| && order[n] in projects
    ensures forall p :: Shown(projects, visible, order[..n + 1], p)
              == Shown(projects, visible, order[..n], p)
                 + if order[n] in visible && Anchor(projects, visible, order[n]) == p then [order[n]] else []
  {
    assert order[..n + 1][..n] == order[..n];
  }

  lemma {:induction false} ShownMembers(projects: Projects, visible: set<Id>, order: seq<Id>, parent: Option<Id>)
    requires forall i, j :: 0 <= i < j < |order| ==> order[i] != order[j]
    ensures var s := Shown(projects, visible, order, parent);
            (forall i, j :: 0 <= i < j < |s| ==> s[i] != s[j])
            && forall id :: id in s <==>
                 id in order && id in visible && id in projects && Anchor(projects, visible, id) == parent
    decreases |order|
  {
    if order != [] {
      var rest, last := order[..|order| - 1], order[|order| - 1];
      ShownMembers(projects, visible, rest, parent);
      assert order == rest + [last];
      var s := Shown(projects, visible, rest, parent);
      forall i | 0 <= i < |s| ensures s[i] != last {
        assert s[i] in s && s[i] in rest;
      }
    }
  }

  /** The forest after the first `n` listed rows. */
  ghost predicate HungUpTo(projects: Projects, visible: set<Id>, order: seq<Id>, n: nat,
                           roots: seq<Id>, children: map<Id, seq<Id>>)
    requires n <= |order|
  {
    roots == Shown(projects, visible, order[..n], None) && children.Keys == visible
    && forall p :: p in visible ==> children[p] == Shown(projects, visible, order[..n], Some(p))
  }

  lemma HangNext(projects: Projects, visible: set<Id>, order: seq<Id>, n: nat,
                 roots: seq<Id>, children: map<Id, seq<Id>>, newRoots: seq<Id>, newChildren: map<Id, seq<Id>>)
    requires n < |order| && order[n] in projects && HungUpTo(projects, visible, order, n, roots, children)
    requires var id := order[n];
             if id !in visible then newRoots == roots && newChildren == children
             else match Anchor(projects, visible, id)
                  case None => newRoots == roots + [id] && newChildren == children
                  case Some(up) => newRoots == roots && newChildren == children[up := children[up] + [id]]
    ensures HungUpTo(projects, visible, order, n + 1, newRoots, newChildren)
  {
    ShownGrows(projects, visible, order, n);
  }

  /** The two loops of `TreeService.tree` that hang every visible node below its parent or
      at the top. */
  method BuildForest(projects: Projects, visible: set<Id>, order: seq<Id>)
    returns (roots: seq<Id>, children: map<Id, seq<Id>>)
    requires Enumerates(order, LiveProjects(projects)) && visible <= LiveProjects(projects)
    ensures HungUpTo(projects, visible, order, |order|, roots, children)
  {
    children := map id | id in visible :: [];
    roots := [];
    for n := 0 to |order|
      invariant HungUpTo(projects, visible, order, n, roots, children)
    {
      var id := order[n];
      assert id in order;
      ghost var wasRoots, wasChildren := roots, children;
      if id in visible {
        var up := projects[id].parent;
        if up.Some? && up.value in visible {
          children := children[up.value := children[up.value] + [id]];
        } else {
          roots := roots + [id];
        }
      }
      HangNext(projects, visible, order, n, wasRoots, wasChildren, roots, children);
    }
  }

  /** The listed conversations of one project, in listed order. */
  function TalksOf(conversations: Conversations, order: seq<Id>, project: Id): seq<Id> {
    if order == [] then []
    else
      var id := order[|order| - 1];
      TalksOf(conversations, order[..|order| - 1], project)
      + if id in conversations && conversations[id].project == project then [id] else []
  }

  function LiveConversations(conversations: Conversations): set<Id> {
    set id | id in conversations && conversations[id].deletedAt == None
  }

  /** The loop of `TreeService.tree` over the live conversations: each is hung below its
      project if that is visible. */
  method HangConversations(conversations: Conversations, visible: set<Id>, order: seq<Id>) returns (talks: map<Id, seq<Id>>)
    requires Enumerates(order, LiveConversations(conversations))
    ensures talks.Keys == visible && forall p :: p in visible ==> talks[p] == TalksOf(conversations, order, p)
  {
    talks := map id | id in visible :: [];
    for n := 0 to |order|
      invariant talks.Keys == visible && forall p :: p in visible ==> talks[p] == TalksOf(conversations, order[..n], p)
    {
      assert order[n] in order && order[..n + 1][..n] == order[..n];
      var project := conversations[order[n]].project;
      if project in visible {
        talks := talks[project := talks[project] + [order[n]]];
      }
    }
    assert order[..|order|] == order;
  }

  /** Every live conversation is listed under its own project, once, and nowhere else. */
  lemma {:induction false} TalksShownOnce(conversations: Conversations, order: seq<Id>, project: Id)
    requires forall i, j :: 0 <= i < j < |order| ==> order[i] != order[j]
    ensures var s := TalksOf(conversations, order, project);
            (forall i, j :: 0 <= i < j < |s| ==> s[i] != s[j])
            && forall id :: id in s <==> id in order && id in conversations && conversations[id].project == project
    decreases |order|
  {
    if order != [] {
      var rest, last := order[..|order| - 1], order[|order| - 1];
      TalksShownOnce(conversations, rest, project);
      assert order == rest + [last];
      var s := TalksOf(conversations, rest, project);
      forall i | 0 <= i < |s| ensures s[i] != last {
        assert s[i] in s && s[i] in rest;
      }
    }
  }

  /** `id` is found `k` levels below a root of the built forest. */
  ghost predicate Hangs(roots: seq<Id>, children: map<Id, seq<Id>>, projects: Projects, id: Id, k: nat)
    decreases k
  {
    if k == 0 then id in roots
    else id in projects && projects[id].parent.Some? && projects[id].parent.value in children
         && id in children[projects[id].parent.value]
         && Hangs(roots, children, projects, projects[id].parent.value, k - 1)
  }

  /** Every visible project is in the forest exactly once: no list holds a project twice, one
      list holds this one, and that list is reached from a root. */
  lemma {:induction false} ForestShowsOnce(projects: Projects, visible: set<Id>, order: seq<Id>,
                                           roots: seq<Id>, children: map<Id, seq<Id>>, id: Id, n: nat)
    requires Enumerates(order, LiveProjects(projects)) && visible <= LiveProjects(projects)
    requires HungUpTo(projects, visible, order, |order|, roots, children)
    requires id in visible && Chain(projects, id, n)
    ensures NoRepeats(roots) && forall p :: p in visible ==> NoRepeats(children[p])
    ensures id in roots <==> Anchor(projects, visible, id) == None
    ensures forall p :: p in visible ==> (id in children[p] <==> Anchor(projects, visible, id) == Some(p))
    ensures exists k: nat :: k < n && Hangs(roots, children, projects, id, k)
    decreases n
  {
    assert order[..|order|] == order;
    ShownMembers(projects, visible, order, None);
    forall p | p in visible ensures NoRepeats(children[p]) && (id in children[p] <==> Anchor(projects, visible, id) == Some(p)) {
      ShownMembers(projects, visible, order, Some(p));
    }
    if Anchor(projects, visible, id) == None {
      assert Hangs(roots, children, projects, id, 0);
    } else {
      var up := projects[id].parent.value;
      ForestShowsOnce(projects, visible, order, roots, children, up, n - 1);
      var k: nat :| k < n - 1 && Hangs(roots, children, projects, up, k);
      assert Hangs(roots, children, projects, id, k + 1);
    }
  }

  /** In the forest, at whatever depth, a visible project surfaces at the top exactly when the
      caller may not read its parent: the one pass that makes the forest and the climb that
      guards every other request agree there. */
  lemma SurfacedMeansHidden(projects: Projects, grants: Grants, actor: Actor, visible: map<Id, Permission>, id: Id, n: nat)
    requires OnePass(projects, grants, actor, visible) && LiveChain(projects, id, n) && projects[id].parent.Some?
    ensures id in visible ==>
              (Anchor(projects, visible.Keys, id) == None <==> PermissionFor(projects, grants, actor, projects[id].parent.value) == None)
  {
    var up := projects[id].parent.value;
    assert LiveChain(projects, up, n - 1);
    LiveChainIsChain(projects, up, n - 1);
    if id in visible {
      assert Lookup(visible, id).Some? && Downward(projects, grants, actor, id, n).Some?;
      WalksAgree(projects, grants, actor, up, n - 1);
    }
  }

  /** So nothing below a project the caller sees is hidden from him: in the forest exactly
      unless it is the first row the pass refuses to go to and its parent is seen; and to the
      climb exactly unless it is more than `MAX_DEPTH` rows deep, and of its nearest rows only
      the one just past the guard holds a membership of the caller. */
  lemma ReadsDownExactly(projects: Projects, grants: Grants, actor: Actor, visible: map<Id, Permission>, id: Id, n: nat)
    requires OnePass(projects, grants, actor, visible) && LiveChain(projects, id, n) && projects[id].parent.Some?
    ensures var up := projects[id].parent.value;
            (up in visible ==> id in visible)
            <==> actor.role == Admin || n != MAX_DEPTH + 2 || Ungranted(projects, grants, actor.id, up, MAX_DEPTH + 1)
    ensures (PermissionFor(projects, grants, actor, projects[id].parent.value).Some? ==> PermissionFor(projects, grants, actor, id).Some?)
            <==> actor.role == Admin || n <= MAX_DEPTH
                 || !(Ungranted(projects, grants, actor.id, id, MAX_DEPTH) && (Above(projects, id, MAX_DEPTH), actor.id) in grants)
  {
    SeenDownExactly(projects, grants, actor, visible, id, n);
    ClimbedDownExactly(projects, grants, actor, id, n);
  }

  lemma SeenDownExactly(projects: Projects, grants: Grants, actor: Actor, visible: map<Id, Permission>, id: Id, n: nat)
    requires OnePass(projects, grants, actor, visible) && LiveChain(projects, id, n) && projects[id].parent.Some?
    ensures var up := projects[id].parent.value;
            (up in visible ==> id in visible)
            <==> actor.role == Admin || n != MAX_DEPTH + 2 || Ungranted(projects, grants, actor.id, up, MAX_DEPTH + 1)
  {
    hide Ungranted;
    var up, user := projects[id].parent.value, actor.id;
    assert LiveChain(projects, up, n - 1);
    LiveChainIsChain(projects, up, n - 1);
    assert Lookup(visible, id) == Downward(projects, grants, actor, id, n);
    assert Lookup(visible, up) == Downward(projects, grants, actor, up, n - 1);
    CapInjectsNone(actor, Nearest(projects, grants, user, id, n));
    CapInjectsNone(actor, Nearest(projects, grants, user, up, n - 1));
    if n == MAX_DEPTH + 2 { UngrantedFindsNothing(projects, grants, user, up, n - 1, n - 1); }
  }

  lemma ClimbedDownExactly(projects: Projects, grants: Grants, actor: Actor, id: Id, n: nat)
    requires LiveChain(projects, id, n) && projects[id].parent.Some?
    ensures (PermissionFor(projects, grants, actor, projects[id].parent.value).Some? ==> PermissionFor(projects, grants, actor, id).Some?)
            <==> actor.role == Admin || n <= MAX_DEPTH
                 || !(Ungranted(projects, grants, actor.id, id, MAX_DEPTH) && (Above(projects, id, MAX_DEPTH), actor.id) in grants)
  {
    hide Ungranted;
    var up, user := projects[id].parent.value, actor.id;
    LiveChainIsChain(projects, id, n);
    assert (id, user) !in grants ==> Nearest(projects, grants, user, id, MAX_DEPTH + 1) == Nearest(projects, grants, user, up, MAX_DEPTH);
    CapInjectsNone(actor, Nearest(projects, grants, user, id, MAX_DEPTH));
    CapInjectsNone(actor, Nearest(projects, grants, user, up, MAX_DEPTH));
    if n <= MAX_DEPTH {
      NearestIsComplete(projects, grants, user, id, n, MAX_DEPTH);
      NearestIsComplete(projects, grants, user, id, n, MAX_DEPTH + 1);
    } else {
      UngrantedFindsNothing(projects, grants, user, id, n, MAX_DEPTH);
      OneRowFurther(projects, grants, user, id, n, MAX_DEPTH);
    }
  }
}
