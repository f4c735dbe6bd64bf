/** The in-memory tree of the desktop application (`Workspace` in `tree_agent/store.py`).

  A node is a dictionary in exactly one list: the top-level list or the `children` list of
  a project. Here `kids` maps an owner to its list, the top level being owned by `None`;
  `up`, a ghost field, maps every node that the lists reach to its owner. Nodes cut off by
  a deletion stay in the maps, unreachable. */
module Workspace {
  import opened Base
  import Levels
  import opened Tables
  import opened Naming
  import opened ProjectJobs
  import opened ForkJob

  datatype Kind = ProjectNode | ConversationNode

  datatype Line = Line(role: string, text: string)

  datatype Node = Node(kind: Kind, name: string, thread: Option<Id>, forkOf: Option<Id>, forkOfName: string, messages: seq<Line>)

  type Nodes = map<Id, Node>

  type Children = map<Option<Id>, seq<Id>>

  /** Owners by node. */
  type Parents = map<Id, Option<Id>>

  /** The parent links alone, as a graph. */
  function Graph(up: Parents): Projects { map id | id in up :: Project(up[id], "", [], "", 0, None, None) }

  predicate Owns(nodes: Nodes, up: Parents, o: Option<Id>) {
    o == None || (o.value in up && o.value in nodes && nodes[o.value].kind == ProjectNode)
  }

  /** The list of an owner: its nodes, each once. */
  ghost predicate Lists(up: Parents, o: Option<Id>, list: seq<Id>) {
    NoRepeats(list) && forall id :: id in list <==> id in up && up[id] == o
  }

  /** Every node is in exactly one list, once, and following owners leads to the top; a
      conversation owns nothing and is never at the top. */
  ghost predicate Forest(nodes: Nodes, kids: Children, up: Parents) {
    up.Keys <= nodes.Keys && (forall o :: Owns(nodes, up, o) ==> o in kids && Lists(up, o, kids[o]))
    && (forall id {:trigger up[id]} :: id in up ==> Owns(nodes, up, up[id]) && (up[id] == None ==> nodes[id].kind == ProjectNode))
    && Acyclic(Graph(up))
  }

  // ------------------------------------------------------------------ lists

  function Pairs(list: seq<Id>, owner: Option<Id>): seq<(Id, Option<Id>)> {
    seq(|list|, i requires 0 <= i < |list| => (list[i], owner))
  }

  function Position(list: seq<Id>, id: Id): (i: nat)
    ensures i <= |list| && (i < |list| <==> id in list) && (i < |list| ==> list[i] == id)
    ensures forall j :: 0 <= j < i ==> list[j] != id
  {
    if list == [] || list[0] == id then 0 else 1 + Position(list[1..], id)
  }

  /** `del siblings[i]` */
  function CutOut(list: seq<Id>, i: nat): seq<Id>
    requires i < |list|
  {
    list[..i] + list[i + 1..]
  }

  /** `max(0, min(index, len(target)))` */
  function Within(index: int, n: nat): (i: nat)
    ensures i <= n
  {
    if index < 0 then 0 else if index > n then n else index
  }

  /** Where the node goes in the list it is put into, `rest` being that list without it. */
  function Slot(index: Option<int>, same: bool, was: nat, n: nat): (i: nat)
    ensures i <= n
  {
    match index
    case None => n
    case Some(k) => Within(if same && k > was then k - 1 else k, n)
  }

  // ------------------------------------------------------------------- walk

  type Visits = seq<(Id, Option<Id>)>

  function Firsts(visits: Visits): set<Id> { set v | v in visits :: v.0 }

  ghost predicate Different(visits: Visits) { forall i, j :: 0 <= i < j < |visits| ==> visits[i].0 != visits[j].0 }

  /** Every visit names the node's owner, and the owner was yielded before. */
  ghost predicate Sound(up: Parents, done: set<Id>, visits: Visits) {
    forall v :: v in visits ==> v.0 in up && up[v.0] == v.1 && (v.1.Some? ==> v.1.value in done)
  }

  /** What a depth-first walk has yielded and what it has put off. */
  ghost predicate Reaching(up: Parents, order: Visits, stack: Visits) {
    Different(order) && Different(stack) && Firsts(order) !! Firsts(stack)
    && Sound(up, Firsts(order), order) && Sound(up, Firsts(order), stack)
    && (forall id :: id in up && (up[id] == None || up[id].value in Firsts(order)) ==> id in Firsts(order) + Firsts(stack))
  }

  lemma FirstsOfSum(a: Visits, b: Visits)
    ensures Firsts(a + b) == Firsts(a) + Firsts(b)
  {
    forall id ensures id in Firsts(a + b) <==> id in Firsts(a) + Firsts(b) {
      if id in Firsts(a) { var v :| v in a && v.0 == id; assert v in a + b; }
      if id in Firsts(b) { var v :| v in b && v.0 == id; assert v in a + b; }
    }
  }

  lemma FirstsOfPairs(list: seq<Id>, owner: Option<Id>)
    ensures forall id :: id in Firsts(Pairs(list, owner)) <==> id in list
    ensures forall v :: v in Pairs(list, owner) ==> v.0 in list && v.1 == owner
  {
    forall id | id in list ensures id in Firsts(Pairs(list, owner)) {
      var i :| 0 <= i < |list| && list[i] == id;
      assert Pairs(list, owner)[i] == (id, owner);
    }
  }

  lemma DifferentSum(a: Visits, b: Visits)
    requires Different(a) && Different(b) && Firsts(a) !! Firsts(b)
    ensures Different(a + b)
  {
    forall i, j | 0 <= i < j < |a + b| ensures (a + b)[i].0 != (a + b)[j].0 {
      if i < |a| <= j { assert a[i].0 in Firsts(a) && b[j - |a|].0 in Firsts(b); }
    }
  }

  lemma {:induction false} AllReached(up: Parents, order: Visits, id: Id, n: nat)
    requires Reaching(up, order, []) && Chain(Graph(up), id, n)
    ensures id in Firsts(order)
    decreases n
  {
    if up[id].Some? { AllReached(up, order, up[id].value, n - 1); }
  }

  function NextVisits(nodes: Nodes, kids: Children, x: Id): Visits {
    if x in nodes && nodes[x].kind == ProjectNode && Some(x) in kids then Pairs(kids[Some(x)], Some(x)) else []
  }

  lemma ChildVisits(nodes: Nodes, kids: Children, up: Parents, x: Id)
    requires Forest(nodes, kids, up) && x in up
    ensures var more := NextVisits(nodes, kids, x);
            Different(more) && Sound(up, {x}, more) && forall id :: id in Firsts(more) <==> id in up && up[id] == Some(x)
  {
    assert Owns(nodes, up, Some(x)) <==> nodes[x].kind == ProjectNode;
    if nodes[x].kind == ProjectNode { FirstsOfPairs(kids[Some(x)], Some(x)); }
  }

  lemma SoundParts(up: Parents, done: set<Id>, more: set<Id>, a: Visits, b: Visits)
    ensures Sound(up, done, a) && done <= more ==> Sound(up, more, a)
    ensures Sound(up, done, a) && Sound(up, done, b) ==> Sound(up, done, a + b)
    ensures Sound(up, done, a) && a != [] ==> Sound(up, done, a[1..]) && Sound(up, done, [a[0]]) && a[0].0 in up
  {}

  lemma FirstsOfStack(stack: Visits)
    requires Different(stack) && stack != []
    ensures Firsts([stack[0]]) == {stack[0].0} && Firsts(stack[1..]) == Firsts(stack) - {stack[0].0} && stack[0].0 in Firsts(stack)
    ensures Different(stack[1..]) && Different([stack[0]])
  {
    var x := stack[0];
    assert x in [x] && x in stack;
    forall id ensures id in Firsts(stack[1..]) <==> id in Firsts(stack) && id != x.0 {
      if id in Firsts(stack) && id != x.0 {
        var v :| v in stack && v.0 == id;
        var i :| 0 <= i < |stack| && stack[i] == v;
        assert stack[1..][i - 1] == v;
      }
    }
  }

  /** The next node is yielded; its children go before everything put off. */
  lemma WalkOn(nodes: Nodes, kids: Children, up: Parents, order: Visits, stack: Visits)
    requires Forest(nodes, kids, up) && Reaching(up, order, stack) && stack != []
    ensures stack[0].0 in up && stack[0].0 !in Firsts(order) && stack[0].0 in Firsts(order + [stack[0]])
    ensures Reaching(up, order + [stack[0]], NextVisits(nodes, kids, stack[0].0) + stack[1..])
  {
    hide Firsts, Different, Sound, Forest, NextVisits;
    var x, rest := stack[0], stack[1..];
    var more := NextVisits(nodes, kids, x.0);
    var done := Firsts(order + [x]);
    FirstsOfStack(stack);
    SoundParts(up, Firsts(order), done, stack, []);
    ChildVisits(nodes, kids, up, x.0);
    FirstsOfSum(order, [x]);
    FirstsOfSum(more, rest);
    SoundParts(up, Firsts(order), done, order, [x]);
    SoundParts(up, Firsts(order), done, order + [x], []);
    SoundParts(up, Firsts(order), done, rest, []);
    SoundParts(up, {x.0}, done, more, []);
    SoundParts(up, done, done, more, rest);
    NewVisits(up, order, rest, more, x.0);
    DifferentSum(order, [x]);
    DifferentSum(more, rest);
  }

  lemma NewVisits(up: Parents, order: Visits, rest: Visits, more: Visits, x: Id)
    requires Sound(up, Firsts(order), order) && Sound(up, Firsts(order), rest) && x !in Firsts(order)
    requires forall id :: id in Firsts(more) ==> id in up && up[id] == Some(x)
    ensures Firsts(more) !! Firsts(order) && Firsts(more) !! Firsts(rest)
  {}

  lemma WalkBegins(nodes: Nodes, kids: Children, up: Parents)
    requires Forest(nodes, kids, up)
    ensures Reaching(up, [], Pairs(kids[None], None))
  {
    FirstsOfPairs(kids[None], None);
    assert Owns(nodes, up, None);
  }

  lemma WalkEnds(up: Parents, order: Visits)
    requires Acyclic(Graph(up)) && Reaching(up, order, [])
    ensures Firsts(order) == up.Keys
  {
    forall id | id in up ensures id in Firsts(order) {
      assert Rooted(Graph(up), id);
      var n: nat :| Chain(Graph(up), id, n);
      AllReached(up, order, id, n);
    }
    forall id | id in Firsts(order) ensures id in up {
      var v :| v in order && v.0 == id;
    }
  }

  // --------------------------------------------------------------- preorder

  /** Depth first: each node, then everything below it, then the rest; `n` bounds how far
      down the recursion goes. */
  function Preorder(nodes: Nodes, kids: Children, visits: Visits, n: nat): Visits
    decreases n, |visits|
  {
    if n == 0 || visits == [] then []
    else [visits[0]] + Preorder(nodes, kids, NextVisits(nodes, kids, visits[0].0), n - 1) + Preorder(nodes, kids, visits[1..], n)
  }

  /** This is the depth-first order of the whole tree: what the recursion gives however far
      down it may go, from some depth on. */
  ghost predicate IsPreorder(nodes: Nodes, kids: Children, order: Visits)
    requires None in kids
  {
    exists depth: nat :: SettledFrom(nodes, kids, order, depth)
  }

  ghost predicate SettledFrom(nodes: Nodes, kids: Children, order: Visits, depth: nat)
    requires None in kids
  {
    forall n: nat :: n >= depth ==> Preorder(nodes, kids, Pairs(kids[None], None), n) == order
  }

  lemma PreorderUnfolds(nodes: Nodes, kids: Children, visits: Visits, n: nat)
    ensures visits == [] ==> Preorder(nodes, kids, visits, n) == []
    ensures n > 0 && visits != [] ==>
              Preorder(nodes, kids, visits, n)
              == [visits[0]] + Preorder(nodes, kids, NextVisits(nodes, kids, visits[0].0), n - 1) + Preorder(nodes, kids, visits[1..], n)
  {}

  lemma {:induction false} PreorderSum(nodes: Nodes, kids: Children, a: Visits, b: Visits, n: nat)
    ensures Preorder(nodes, kids, a + b, n) == Preorder(nodes, kids, a, n) + Preorder(nodes, kids, b, n)
    decreases |a|
  {
    if a == [] {
      assert a + b == b;
    } else {
      assert (a + b)[1..] == a[1..] + b;
      PreorderSum(nodes, kids, a[1..], b, n);
    }
  }

  /** No chain of owners is longer. */
  ghost predicate DepthAtMost(up: Parents, top: nat) { forall id, n: nat :: Chain(Graph(up), id, n) ==> n <= top }

  lemma {:induction false} DeepestOf(p: Projects, ids: set<Id>) returns (top: nat)
    requires Acyclic(p) && ids <= p.Keys
    ensures forall id, n: nat :: id in ids && Chain(p, id, n) ==> n <= top
    decreases ids
  {
    if ids == {} {
      top := 0;
    } else {
      var id :| id in ids;
      top := DeepestOf(p, ids - {id});
      assert Rooted(p, id);
      var d: nat :| Chain(p, id, d);
      if d > top { top := d; }
      forall x, n: nat | x in ids && Chain(p, x, n) ensures n <= top {
        if x == id { ChainUnique(p, id, n, d); }
      }
    }
  }

  lemma SomeDepth(up: Parents) returns (top: nat)
    requires Acyclic(Graph(up))
    ensures DepthAtMost(up, top)
  {
    top := DeepestOf(Graph(up), Graph(up).Keys);
  }

  ghost predicate AllAt(up: Parents, visits: Visits, d: nat) { forall v :: v in visits ==> Chain(Graph(up), v.0, d) }

  lemma NextAt(nodes: Nodes, kids: Children, up: Parents, x: Id, d: nat)
    requires Forest(nodes, kids, up) && Chain(Graph(up), x, d)
    ensures AllAt(up, NextVisits(nodes, kids, x), d + 1)
  {
    ChildVisits(nodes, kids, up, x);
    forall v | v in NextVisits(nodes, kids, x) ensures Chain(Graph(up), v.0, d + 1) {
      assert v.0 in Firsts(NextVisits(nodes, kids, x));
    }
  }

  lemma FirstAtDepth(up: Parents, visits: Visits, d: nat, top: nat)
    requires DepthAtMost(up, top) && AllAt(up, visits, d) && visits != []
    ensures Chain(Graph(up), visits[0].0, d) && d <= top && AllAt(up, visits[1..], d)
  {}

  /** Below depth `d` there are at most `top - d` levels; further recursion adds nothing. */
  lemma {:induction false} PreorderStable(nodes: Nodes, kids: Children, up: Parents, visits: Visits, d: nat, top: nat, m: nat, n: nat)
    requires Forest(nodes, kids, up) && DepthAtMost(up, top) && AllAt(up, visits, d) && d > 0
    requires m + d > top && n + d > top
    ensures Preorder(nodes, kids, visits, m) == Preorder(nodes, kids, visits, n)
    decreases m, |visits|
  {
    hide Forest, NextVisits, Graph, Preorder, DepthAtMost, Chain;
    PreorderUnfolds(nodes, kids, visits, m);
    PreorderUnfolds(nodes, kids, visits, n);
    if visits != [] {
      FirstAtDepth(up, visits, d, top);
      NextAt(nodes, kids, up, visits[0].0, d);
      PreorderStable(nodes, kids, up, NextVisits(nodes, kids, visits[0].0), d + 1, top, m - 1, n - 1);
      PreorderStable(nodes, kids, up, visits[1..], d, top, m, n);
    }
  }

  lemma RootsAt(nodes: Nodes, kids: Children, up: Parents)
    requires Forest(nodes, kids, up)
    ensures None in kids && AllAt(up, Pairs(kids[None], None), 1)
  {
    assert Owns(nodes, up, None);
    FirstsOfPairs(kids[None], None);
  }

  lemma ChainOf(nodes: Nodes, kids: Children, up: Parents, id: Id) returns (d: nat)
    requires Forest(nodes, kids, up) && id in up
    ensures d > 0 && Chain(Graph(up), id, d)
  {
    assert Rooted(Graph(up), id);
    d :| Chain(Graph(up), id, d);
  }

  /** What the stack still stands for, once its first node was yielded. */
  lemma PreorderOn(nodes: Nodes, kids: Children, up: Parents, stack: Visits, top: nat)
    requires Forest(nodes, kids, up) && DepthAtMost(up, top) && stack != [] && stack[0].0 in up
    ensures Preorder(nodes, kids, stack, top + 1)
            == [stack[0]] + Preorder(nodes, kids, NextVisits(nodes, kids, stack[0].0) + stack[1..], top + 1)
  {
    hide NextVisits, Graph, DepthAtMost, Forest, AllAt, Preorder, Chain;
    PreorderUnfolds(nodes, kids, stack, top + 1);
    var next := NextVisits(nodes, kids, stack[0].0);
    var d := ChainOf(nodes, kids, up, stack[0].0);
    NextAt(nodes, kids, up, stack[0].0, d);
    PreorderStable(nodes, kids, up, next, d + 1, top, top, top + 1);
    PreorderSum(nodes, kids, next, stack[1..], top + 1);
  }

  lemma PreorderEnds(nodes: Nodes, kids: Children, up: Parents, order: Visits, top: nat)
    requires Forest(nodes, kids, up) && DepthAtMost(up, top) && None in kids
    requires order == Preorder(nodes, kids, Pairs(kids[None], None), top + 1)
    ensures IsPreorder(nodes, kids, order)
  {
    RootsAt(nodes, kids, up);
    forall n: nat | n >= top + 1 ensures Preorder(nodes, kids, Pairs(kids[None], None), n) == order {
      PreorderStable(nodes, kids, up, Pairs(kids[None], None), 1, top, top + 1, n);
    }
    assert SettledFrom(nodes, kids, order, top + 1);
  }

  // ------------------------------------------------------------- operations

  /** The owners above a node, nearest first. */
  function AncestorsOf(up: Parents, id: Id, n: nat): seq<Id>
    requires Chain(Graph(up), id, n)
    decreases n
  {
    match up[id]
    case None => []
    case Some(owner) => [owner] + AncestorsOf(up, owner, n - 1)
  }

  lemma BeneathParent(p: Projects, root: Id, id: Id)
    requires Beneath(p, root, id) && id != root
    ensures id in p && p[id].parent.Some? && Beneath(p, root, p[id].parent.value)
  {
    var d: nat :| id in Fringe(p, p.Keys, root, d);
    assert p[id].parent.value in Fringe(p, p.Keys, root, d - 1);
  }

  lemma BeneathSelf(p: Projects, root: Id)
    ensures Beneath(p, root, root)
  {
    assert root in Fringe(p, p.Keys, root, 0);
  }

  lemma {:induction false} AncestorsExact(up: Parents, id: Id, n: nat, x: Id)
    requires Chain(Graph(up), id, n)
    ensures x in AncestorsOf(up, id, n) <==> x != id && Beneath(Graph(up), x, id)
    decreases n
  {
    var p := Graph(up);
    if up[id].Some? {
      var owner := up[id].value;
      AncestorsExact(up, owner, n - 1, x);
      BeneathSelf(p, owner);
      if x == owner || Beneath(p, x, owner) {
        BeneathChild(p, x, id);
        if x == id { NotAboveItself(p, id, n); }
      }
      if x != id && Beneath(p, x, id) { BeneathParent(p, x, id); }
    } else if x != id && Beneath(p, x, id) {
      BeneathParent(p, x, id);
    }
  }

  /** The owners above `id`, nearest first. */
  ghost predicate AreAncestors(up: Parents, id: Id, chain: seq<Id>)
    requires id in up
  {
    exists n: nat :: Chain(Graph(up), id, n) && chain == AncestorsOf(up, id, n)
  }

  lemma OwnerAbove(up: Parents, id: Id, n: nat, chain: seq<Id>)
    requires Chain(Graph(up), id, n) && up[id].Some?
    ensures up[id].value in up && n > 1 && Chain(Graph(up), up[id].value, n - 1)
    ensures chain + AncestorsOf(up, id, n) == chain + [up[id].value] + AncestorsOf(up, up[id].value, n - 1)
  {}

  lemma ChainIsAncestors(up: Parents, id: Id, n: nat, top: Id, m: nat, chain: seq<Id>)
    requires Chain(Graph(up), id, n) && Chain(Graph(up), top, m) && up[top] == None
    requires AncestorsOf(up, id, n) == chain + AncestorsOf(up, top, m)
    ensures AreAncestors(up, id, chain) && forall x :: x in chain <==> x != id && Beneath(Graph(up), x, id)
  {
    assert chain + [] == chain;
    forall x ensures x in chain <==> x != id && Beneath(Graph(up), x, id) { AncestorsExact(up, id, n, x); }
  }

  lemma NotAboveItself(p: Projects, id: Id, n: nat)
    requires Chain(p, id, n) && p[id].parent.Some?
    ensures !Beneath(p, id, p[id].parent.value)
  {
    if Beneath(p, id, p[id].parent.value) {
      var d: nat :| p[id].parent.value in Fringe(p, p.Keys, id, d);
      FringeChain(p, p.Keys, id, d, p[id].parent.value, n);
      ChainUnique(p, p[id].parent.value, n - 1, n + d);
    }
  }

  /** What `move` accepts. */
  ghost predicate Legal(nodes: Nodes, up: Parents, id: Id, to: Option<Id>) {
    id in up && id in nodes
    && match to
       case None => nodes[id].kind == ProjectNode
       case Some(owner) => owner in up && owner in nodes && nodes[owner].kind == ProjectNode && !Beneath(Graph(up), id, owner)
  }

  function Moved(kids: Children, owner: Option<Id>, to: Option<Id>, id: Id, index: Option<int>): Children
    requires owner in kids && to in kids && id in kids[owner]
  {
    var was := Position(kids[owner], id);
    var cut := kids[owner := CutOut(kids[owner], was)];
    cut[to := Levels.InsertAt(cut[to], Slot(index, owner == to, was, |cut[to]|), id)]
  }

  lemma CutLists(up: Parents, o: Option<Id>, list: seq<Id>, id: Id)
    requires Lists(up, o, list) && id in up && up[id] == o
    ensures var cut := CutOut(list, Position(list, id));
            NoRepeats(cut) && (forall x :: x in cut <==> x in up && up[x] == o && x != id) && |cut| == |list| - 1
  {
    var at := Position(list, id);
    var cut := CutOut(list, at);
    forall x ensures x in cut <==> x in list && x != id {
      if x in list && x != id {
        var i :| 0 <= i < |list| && list[i] == x;
        assert cut[if i < at then i else i - 1] == x;
      }
    }
  }

  lemma PutLists(list: seq<Id>, at: nat, id: Id)
    requires NoRepeats(list) && at <= |list| && id !in list
    ensures NoRepeats(Levels.InsertAt(list, at, id)) && forall x :: x in Levels.InsertAt(list, at, id) <==> x == id || x in list
  {
    var put := Levels.InsertAt(list, at, id);
    assert put[at] == id;
    forall x | x in list ensures x in put {
      var i :| 0 <= i < |list| && list[i] == x;
      assert put[if i < at then i else i + 1] == x;
    }
  }

  lemma MovedLists(up: Parents, kids: Children, owner: Option<Id>, to: Option<Id>, id: Id, index: Option<int>, o: Option<Id>)
    requires owner in kids && to in kids && Lists(up, owner, kids[owner]) && Lists(up, to, kids[to]) && id in up && up[id] == owner
    requires o in kids && Lists(up, o, kids[o])
    ensures Lists(up[id := to], o, Moved(kids, owner, to, id, index)[o])
  {
    hide CutOut, Levels.InsertAt, Slot, Position;
    var was := Position(kids[owner], id);
    CutLists(up, owner, kids[owner], id);
    var cut := kids[owner := CutOut(kids[owner], was)];
    PutLists(cut[to], Slot(index, owner == to, was, |cut[to]|), id);
  }

  /** A legal move keeps the forest: the same nodes, each in one list, no cycle. */
  lemma MoveKeepsForest(nodes: Nodes, kids: Children, up: Parents, id: Id, to: Option<Id>, index: Option<int>)
    requires Forest(nodes, kids, up) && Legal(nodes, up, id, to)
    ensures up[id] in kids && to in kids && id in kids[up[id]]
    ensures Forest(nodes, Moved(kids, up[id], to, id, index), up[id := to])
  {
    hide Lists, Acyclic, Graph, Position, CutOut, Levels.InsertAt, Slot;
    var owner, after := up[id], up[id := to];
    assert Owns(nodes, up, owner) && Owns(nodes, up, to);
    ListHolds(up, owner, kids[owner], id);
    MoveKeepsAcyclic(up, id, to);
    forall o | Owns(nodes, after, o) ensures o in Moved(kids, owner, to, id, index) && Lists(after, o, Moved(kids, owner, to, id, index)[o]) {
      assert Owns(nodes, up, o);
      MovedLists(up, kids, owner, to, id, index, o);
    }
  }

  lemma ListHolds(up: Parents, o: Option<Id>, list: seq<Id>, id: Id)
    requires Lists(up, o, list)
    ensures id in list <==> id in up && up[id] == o
  {}

  lemma MoveKeepsAcyclic(up: Parents, id: Id, to: Option<Id>)
    requires Acyclic(Graph(up)) && id in up && (to.Some? ==> to.value in up && !Beneath(Graph(up), id, to.value))
    ensures Acyclic(Graph(up[id := to]))
  {
    var p, q := Graph(up), Graph(up[id := to]);
    var row := q[id];
    assert q == p[id := row];
    if to.Some? {
      ReparentExact(p, id, row, to.value);
    } else {
      assert Chain(q, id, 1);
      MovedIsAcyclic(p, q, id);
    }
  }

  /** The nodes left after a deletion. */
  ghost function Kept(up: Parents, id: Id): Parents { map x | x in up && !Beneath(Graph(up), id, x) :: up[x] }

  lemma {:induction false} ChainKept(up: Parents, id: Id, x: Id, n: nat)
    requires Chain(Graph(up), x, n) && !Beneath(Graph(up), id, x)
    ensures Chain(Graph(Kept(up, id)), x, n)
    decreases n
  {
    if up[x].Some? {
      if Beneath(Graph(up), id, up[x].value) { BeneathChild(Graph(up), id, x); }
      ChainKept(up, id, up[x].value, n - 1);
    }
  }

  lemma KeptAcyclic(up: Parents, id: Id)
    requires Acyclic(Graph(up))
    ensures Acyclic(Graph(Kept(up, id)))
  {
    forall x | x in Kept(up, id) ensures Rooted(Graph(Kept(up, id)), x) {
      assert Rooted(Graph(up), x);
      var n: nat :| Chain(Graph(up), x, n);
      ChainKept(up, id, x, n);
    }
  }

  /** A node goes with its owner. */
  lemma GoneTogether(up: Parents, id: Id, x: Id)
    requires x in up && x != id
    ensures x in Kept(up, id) <==> (up[x].Some? ==> !Beneath(Graph(up), id, up[x].value))
    ensures id !in Kept(up, id)
  {
    BeneathSelf(Graph(up), id);
    if Beneath(Graph(up), id, x) { BeneathParent(Graph(up), id, x); }
    if up[x].Some? && Beneath(Graph(up), id, up[x].value) { BeneathChild(Graph(up), id, x); }
  }

  function Deleted(kids: Children, owner: Option<Id>, id: Id): Children
    requires owner in kids
  {
    var at := Position(kids[owner], id);
    if at < |kids[owner]| then kids[owner := CutOut(kids[owner], at)] else kids
  }

  lemma DeletedLists(nodes: Nodes, up: Parents, kids: Children, owner: Option<Id>, id: Id, o: Option<Id>)
    requires owner in kids && o in kids && Lists(up, owner, kids[owner]) && Lists(up, o, kids[o]) && Owns(nodes, Kept(up, id), o)
    requires owner == if id in up then up[id] else None
    ensures Lists(Kept(up, id), o, Deleted(kids, owner, id)[o])
  {
    hide Position, CutOut, Graph, Beneath;
    var after := Kept(up, id);
    BeneathSelf(Graph(up), id);
    if id in up { CutLists(up, owner, kids[owner], id); }
    forall x | x in up && up[x] == o && x != id ensures x in after { GoneTogether(up, id, x); }
  }

  /** A deletion keeps the forest: what is left is what was not at or beneath the node. */
  lemma DeleteKeepsForest(nodes: Nodes, kids: Children, up: Parents, id: Id)
    requires Forest(nodes, kids, up)
    ensures var owner := if id in up then up[id] else None;
            owner in kids && Forest(nodes, Deleted(kids, owner, id), Kept(up, id))
  {
    hide Lists, Acyclic, Graph, Position, CutOut, Beneath;
    var owner, after := if id in up then up[id] else None, Kept(up, id);
    assert Owns(nodes, up, owner) && Owns(nodes, up, None);
    KeptAcyclic(up, id);
    forall o | Owns(nodes, after, o) ensures o in Deleted(kids, owner, id) && Lists(after, o, Deleted(kids, owner, id)[o]) {
      assert Owns(nodes, up, o);
      DeletedLists(nodes, up, kids, owner, id, o);
    }
    forall x | x in after ensures Owns(nodes, after, after[x]) {
      BeneathSelf(Graph(up), id);
      GoneTogether(up, id, x);
    }
  }

  lemma AddedLists(up: Parents, o: Option<Id>, list: seq<Id>, owner: Option<Id>, at: nat, id: Id)
    requires Lists(up, o, list) && id !in up && at <= |list|
    ensures Lists(up[id := owner], o, if o == owner then Levels.InsertAt(list, at, id) else list)
  {
    hide Levels.InsertAt;
    PutLists(list, at, id);
  }

  lemma AddedAcyclic(up: Parents, id: Id, owner: Option<Id>)
    requires Acyclic(Graph(up)) && id !in up && (owner.Some? ==> owner.value in up)
    ensures Acyclic(Graph(up[id := owner]))
  {
    var row := Graph(up[id := owner])[id];
    assert Graph(up[id := owner]) == Graph(up)[id := row];
    AddRowAcyclic(Graph(up), id, row);
  }

  /** A new project owns an empty list. */
  function WithList(kids: Children, id: Id, kind: Kind): Children { if kind == ProjectNode then kids[Some(id) := []] else kids }

  function Added(kids: Children, owner: Option<Id>, at: nat, id: Id, kind: Kind): Children
    requires owner in kids && at <= |kids[owner]|
  {
    WithList(kids, id, kind)[owner := Levels.InsertAt(kids[owner], at, id)]
  }

  lemma EmptyList(up: Parents, id: Id, owner: Option<Id>)
    requires id !in up && owner != Some(id) && forall x :: x in up ==> up[x] != Some(id)
    ensures Lists(up[id := owner], Some(id), [])
  {}

  /** A new node keeps the forest. */
  lemma AddKeepsForest(nodes: Nodes, kids: Children, up: Parents, id: Id, node: Node, owner: Option<Id>, at: nat)
    requires Forest(nodes, kids, up) && id !in nodes && Owns(nodes, up, owner) && (owner == None ==> node.kind == ProjectNode)
    requires at <= |kids[owner]|
    ensures Forest(nodes[id := node], Added(kids, owner, at, id, node.kind), up[id := owner])
  {
    hide Lists, Acyclic, Graph, Levels.InsertAt;
    AddedAcyclic(up, id, owner);
    EmptyList(up, id, owner);
    var more, after, lists := nodes[id := node], up[id := owner], Added(kids, owner, at, id, node.kind);
    forall o | Owns(more, after, o) ensures o in lists && Lists(after, o, lists[o]) {
      if o != Some(id) {
        assert Owns(nodes, up, o);
        AddedLists(up, o, kids[o], owner, if o == owner then at else 0, id);
      }
    }
  }

  predicate Forks(nodes: Nodes, x: Id, thread: Option<Id>) { x in nodes && nodes[x].forkOf == thread }

  /** The first position from `n` on that holds no fork of the thread. */
  function AfterForks(nodes: Nodes, list: seq<Id>, thread: Option<Id>, n: nat): (at: nat)
    requires n <= |list|
    ensures n <= at <= |list| && (forall j :: n <= j < at ==> Forks(nodes, list[j], thread))
    ensures at < |list| ==> !Forks(nodes, list[at], thread)
    decreases |list| - n
  {
    if n < |list| && Forks(nodes, list[n], thread) then AfterForks(nodes, list, thread, n + 1) else n
  }

  /** The new node of a fork: the transcript so far and a note. */
  function Branch(source: Node, name: string): Node {
    Node(ConversationNode, name, None, source.thread, source.name, source.messages + [Line("meta", ForkNote(source.name))])
  }

  // --------------------------------------------------------- where a move lands

  lemma CutAt(list: seq<Id>, was: nat, j: nat)
    requires was < |list| && j < |list| - 1
    ensures CutOut(list, was)[j] == list[if j < was then j else j + 1]
  {}

  lemma PutAt(list: seq<Id>, at: nat, id: Id, j: nat)
    requires at <= |list| && j <= |list|
    ensures Levels.InsertAt(list, at, id)[j] == if j < at then list[j] else if j == at then id else list[j - 1]
  {}

  /** Put back where it was, a list is what it was. */
  lemma BackInPlace(list: seq<Id>, was: nat)
    requires was < |list|
    ensures Levels.InsertAt(CutOut(list, was), was, list[was]) == list
  {}

  /** Within one list, the moved node ends up just before the element that was at `index`,
      counted before the move; past the end it goes last, below the start it goes first,
      and at its own place it stays. */
  lemma MoveWithin(list: seq<Id>, id: Id, k: int)
    requires NoRepeats(list) && id in list
    ensures var was := Position(list, id);
            var at := Slot(Some(k), true, was, |list| - 1);
            var r := Levels.InsertAt(CutOut(list, was), at, id);
            (0 <= k < |list| && list[k] != id ==> at + 1 < |r| && r[at] == id && r[at + 1] == list[k])
            && (0 <= k < |list| && list[k] == id ==> r == list)
            && (k >= |list| ==> at == |r| - 1) && (k < 0 ==> at == 0)
  {
    hide CutOut, Levels.InsertAt, Position, NoRepeats;
    var was := Position(list, id);
    if 0 <= k < |list| && list[k] == id { OnlyThere(list, id, k); }
    var at, cut := Slot(Some(k), true, was, |list| - 1), CutOut(list, was);
    CutLength(list, was, at, id);
    if 0 <= k < |list| && list[k] != id {
      PutAt(cut, at, id, at);
      PutAt(cut, at, id, at + 1);
      CutAt(list, was, at);
    } else if 0 <= k < |list| {
      BackInPlace(list, was);
    }
  }

  lemma OnlyThere(list: seq<Id>, id: Id, k: nat)
    requires NoRepeats(list) && k < |list| && list[k] == id
    ensures Position(list, id) == k
  {}

  lemma CutLength(list: seq<Id>, was: nat, at: nat, id: Id)
    requires was < |list| && at < |list|
    ensures |CutOut(list, was)| == |list| - 1 && |Levels.InsertAt(CutOut(list, was), at, id)| == |list|
  {}

  /** Taking the node out again leaves the others in the order they had. */
  lemma OthersKeepOrder(rest: seq<Id>, at: nat, id: Id)
    requires at <= |rest|
    ensures Levels.InsertAt(rest, at, id)[at] == id && CutOut(Levels.InsertAt(rest, at, id), at) == rest
  {}

  /** Into another list, likewise. */
  lemma MoveAcross(list: seq<Id>, id: Id, k: int, was: nat)
    ensures var at := Slot(Some(k), false, was, |list|);
            var r := Levels.InsertAt(list, at, id);
            (0 <= k < |list| ==> r[at] == id && r[at + 1] == list[k]) && (k >= |list| ==> at == |list|) && (k < 0 ==> at == 0)
  {}

  /** A child of the project has this name. */
  predicate NameUsed(nodes: Nodes, up: Parents, parent: Id, name: string) {
    exists id :: id in up && up[id] == Some(parent) && id in nodes && nodes[id].name == name
  }

  /** The names of the children of a project. */
  function UsedNames(nodes: Nodes, up: Parents, parent: Id): set<string> {
    set id | id in up && up[id] == Some(parent) && id in nodes :: nodes[id].name
  }

  /** The first fork name of `base` that no child of the project has. */
  function FreeForkName(nodes: Nodes, up: Parents, parent: Id, base: string): string {
    Forked(StripFork(base), FreeFork(false, UsedNames(nodes, up, parent), StripFork(base)))
  }

  lemma NamesTaken(nodes: Nodes, kids: Children, up: Parents, parent: Id, taken: set<string>)
    requires Forest(nodes, kids, up) && parent in up && nodes[parent].kind == ProjectNode
    requires Some(parent) in kids && taken == set id | id in kids[Some(parent)] && id in nodes :: nodes[id].name
    ensures taken == UsedNames(nodes, up, parent) && forall name :: name in taken <==> NameUsed(nodes, up, parent, name)
  {
    assert Owns(nodes, up, Some(parent)) && Lists(up, Some(parent), kids[Some(parent)]);
  }

  lemma DepthOf(nodes: Nodes, kids: Children, up: Parents) returns (top: nat)
    requires Forest(nodes, kids, up)
    ensures DepthAtMost(up, top) && None in kids
  {
    assert Owns(nodes, up, None);
    top := SomeDepth(up);
  }

  lemma WalkShrinks(up: Parents, order: Visits, stack: Visits)
    requires stack != [] && stack[0].0 in up && stack[0].0 !in Firsts(order)
    ensures up.Keys - Firsts(order + [stack[0]]) < up.Keys - Firsts(order)
  {
    FirstsOfSum(order, [stack[0]]);
    assert stack[0] in [stack[0]];
  }

  lemma WalkDone(nodes: Nodes, kids: Children, up: Parents, order: Visits, top: nat)
    requires Forest(nodes, kids, up) && DepthAtMost(up, top) && Reaching(up, order, []) && None in kids
    requires order + Preorder(nodes, kids, [], top + 1) == Preorder(nodes, kids, Pairs(kids[None], None), top + 1)
    ensures Different(order) && Firsts(order) == up.Keys && Sound(up, up.Keys, order) && IsPreorder(nodes, kids, order)
  {
    WalkEnds(up, order);
    assert order + [] == order;
    PreorderEnds(nodes, kids, up, order, top);
  }

  /** The tree and what is done to it. */
  class Tree {
    var nodes: Nodes
    var kids: Children
    ghost var up: Parents

    ghost predicate Valid()
      reads this
    {
      Forest(nodes, kids, up)
    }

    constructor ()
      ensures Valid() && up == map[] && kids == map[None := []]
    {
      nodes, kids, up := map[], map[None := []], map[];
    }

    /** `walk`: every node with its owner, each once, depth first. */
    method Walk() returns (order: Visits)
      requires Valid()
      ensures Different(order) && Firsts(order) == up.Keys && Sound(up, up.Keys, order)
      ensures None in kids && IsPreorder(nodes, kids, order)
    {
      hide Forest, Acyclic, Graph, Reaching, NextVisits, Preorder, IsPreorder, DepthAtMost;
      ghost var top := DepthOf(nodes, kids, up);
      order := [];
      var stack := Pairs(kids[None], None);
      WalkBegins(nodes, kids, up);
      while stack != []
        invariant Reaching(up, order, stack)
        invariant order + Preorder(nodes, kids, stack, top + 1) == Preorder(nodes, kids, Pairs(kids[None], None), top + 1)
        decreases up.Keys - Firsts(order)
      {
        WalkOn(nodes, kids, up, order, stack);
        WalkShrinks(up, order, stack);
        PreorderOn(nodes, kids, up, stack, top);
        order := order + [stack[0]];
        stack := NextVisits(nodes, kids, stack[0].0) + stack[1..];
      }
      WalkDone(nodes, kids, up, order, top);
    }

    /** `find` */
    method Find(id: Id) returns (found: bool)
      requires Valid()
      ensures found <==> id in up
    {
      var order := Walk();
      for i := 0 to |order|
        invariant forall j :: 0 <= j < i ==> order[j].0 != id
      {
        if order[i].0 == id {
          assert order[i] in order;
          return true;
        }
      }
      found := false;
    }

    /** `parent_of`: the owner, or nothing for a top-level or unknown node. */
    method ParentOf(id: Id) returns (owner: Option<Id>)
      requires Valid()
      ensures owner == if id in up then up[id] else None
    {
      var order := Walk();
      for i := 0 to |order|
        invariant forall j :: 0 <= j < i ==> order[j].0 != id
      {
        if order[i].0 == id {
          assert order[i] in order;
          return order[i].1;
        }
      }
      owner := None;
    }

    /** `ancestors`: the owners above a node, nearest first. */
    method Ancestors(id: Id) returns (chain: seq<Id>)
      requires Valid()
      ensures id in up ==> AreAncestors(up, id, chain)
      ensures id in up ==> forall x :: x in chain <==> x != id && Beneath(Graph(up), x, id)
      ensures id !in up ==> chain == []
    {
      hide Acyclic, Chain, Graph, AncestorsOf, Beneath;
      chain := [];
      var current := id;
      ghost var n: nat, m: nat := 0, 0;
      if id in up {
        n := ChainOf(nodes, kids, up, id);
        m := n;
      }
      var owner := ParentOf(current);
      while owner.Some?
        invariant id in up ==> Chain(Graph(up), id, n) && Chain(Graph(up), current, m) && current in up && owner == up[current]
        invariant id in up ==> AncestorsOf(up, id, n) == chain + AncestorsOf(up, current, m)
        invariant id !in up ==> owner == None && chain == []
        decreases m
      {
        OwnerAbove(up, current, m, chain);
        chain := chain + [owner.value];
        current := owner.value;
        m := m - 1;
        owner := ParentOf(current);
      }
      if id in up { ChainIsAncestors(up, id, n, current, m, chain); }
    }

    /** `move`. When it is refused, nothing changed; otherwise the node has left its list
        and stands in the new one. */
    method Move(id: Id, to: Option<Id>, index: Option<int>) returns (moved: bool)
      requires Valid()
      modifies this
      ensures Valid() && nodes == old(nodes)
      ensures moved <==> old(Legal(nodes, up, id, to))
      ensures !moved ==> kids == old(kids) && up == old(up)
      ensures moved ==> up == old(up)[id := to] && kids == Moved(old(kids), old(up[id]), to, id, index)
    {
      hide Acyclic, Chain, Lists, Graph, Slot, CutOut, Levels.InsertAt, Fringe;
      BeneathSelf(Graph(up), id);
      var found := Find(id);
      if !found || to == Some(id) {
        return false;
      }
      if to == None {
        if nodes[id].kind == ConversationNode {
          return false;
        }
      } else {
        found := Find(to.value);
        if !found || nodes[to.value].kind != ProjectNode {
          return false;
        }
        var chain := Ancestors(to.value);
        if id in chain {
          return false;
        }
      }
      MoveKeepsForest(nodes, kids, up, id, to, index);
      var owner := ParentOf(id);
      var was := Position(kids[owner], id);
      kids := kids[owner := CutOut(kids[owner], was)];
      var slot := Slot(index, owner == to, was, |kids[to]|);
      kids := kids[to := Levels.InsertAt(kids[to], slot, id)];
      up := up[id := to];
      moved := true;
    }

    /** `delete`: the node leaves its list, and the tree below it goes with it. */
    method Delete(id: Id)
      requires Valid()
      modifies this
      ensures Valid() && nodes == old(nodes)
      ensures up == Kept(old(up), id)
      ensures old(None in kids && (id in up ==> up[id] in kids))
      ensures kids == Deleted(old(kids), if id in old(up) then old(up[id]) else None, id)
    {
      hide Acyclic, Chain, Lists, Graph, CutOut, Beneath, Kept;
      assert Owns(nodes, up, None);
      var owner := ParentOf(id);
      DeleteKeepsForest(nodes, kids, up, id);
      var at := Position(kids[owner], id);
      if at < |kids[owner]| {
        kids := kids[owner := CutOut(kids[owner], at)];
      }
      up := Kept(up, id);
    }

    /** `unique_name` */
    method FreshName(parent: Id, base: string) returns (name: string)
      requires Valid() && parent in up && nodes[parent].kind == ProjectNode
      ensures !NameUsed(nodes, up, parent, name)
      ensures name == if !NameUsed(nodes, up, parent, base) then base
                      else Numbered(base, FreeNumber(false, UsedNames(nodes, up, parent), base, 2))
    {
      var taken := set id | id in kids[Some(parent)] && id in nodes :: nodes[id].name;
      NamesTaken(nodes, kids, up, parent, taken);
      name := UniqueName(false, taken, base);
    }

    /** `fork_name` */
    method FreshForkName(parent: Id, base: string) returns (name: string)
      requires Valid() && parent in up && nodes[parent].kind == ProjectNode
      ensures !NameUsed(nodes, up, parent, name)
      ensures name == FreeForkName(nodes, up, parent, base)
    {
      var taken := set id | id in kids[Some(parent)] && id in nodes :: nodes[id].name;
      NamesTaken(nodes, kids, up, parent, taken);
      name := ForkName(false, taken, base);
    }

    /** The position loop of `fork_conversation`. */
    method SkipForks(list: seq<Id>, thread: Option<Id>, first: nat) returns (at: nat)
      requires first <= |list|
      ensures at == AfterForks(nodes, list, thread, first)
    {
      at := first;
      while at < |list| && Forks(nodes, list[at], thread)
        invariant at <= |list| && AfterForks(nodes, list, thread, at) == AfterForks(nodes, list, thread, first)
      {
        at := at + 1;
      }
    }

    /** `fork_conversation`: nothing unless a conversation that has run; otherwise a sibling
        with a free name and a copy of the transcript so far, below the source and the forks
        already made of the same thread. */
    method Fork(id: Id, newId: Id) returns (forked: bool)
      requires Valid() && newId !in nodes
      modifies this
      ensures Valid()
      ensures forked <==> id in old(up) && old(nodes[id]).kind == ConversationNode && old(nodes[id]).thread.Some?
      ensures !forked ==> nodes == old(nodes) && kids == old(kids) && up == old(up)
      ensures forked ==> up == old(up)[newId := old(up[id])] && newId in nodes && nodes == old(nodes)[newId := nodes[newId]]
      ensures forked ==> nodes[newId] == Branch(old(nodes[id]), nodes[newId].name)
                         && old(up[id]).Some? && !NameUsed(old(nodes), old(up), old(up[id]).value, nodes[newId].name)
                         && nodes[newId].name == FreeForkName(old(nodes), old(up), old(up[id]).value, old(nodes[id]).name)
      ensures forked ==>
                var owner, list := old(up[id]), old(kids[up[id]]);
                kids == Added(old(kids), owner, AfterForks(old(nodes), list, old(nodes[id]).thread, Position(list, id) + 1), newId, ConversationNode)
    {
      hide Acyclic, Chain, Graph, Levels.InsertAt, Lists, FreeForkName, NameUsed, Position;
      var found := Find(id);
      var owner := ParentOf(id);
      if !found || nodes[id].kind != ConversationNode || owner == None {
        return false;
      }
      var source := nodes[id];
      if source.thread == None {
        return false;
      }
      assert Owns(nodes, up, owner);
      ListHolds(up, owner, kids[owner], id);
      var name := FreshForkName(owner.value, source.name);
      var at := SkipForks(kids[owner], source.thread, Position(kids[owner], id) + 1);
      Insert(newId, Branch(source, name), owner, at);
      forked := true;
    }

    /** A new node in its owner's list. */
    method Insert(id: Id, node: Node, owner: Option<Id>, at: nat)
      requires Valid() && id !in nodes && Owns(nodes, up, owner) && (owner == None ==> node.kind == ProjectNode)
      requires at <= |kids[owner]|
      modifies this
      ensures Valid() && nodes == old(nodes)[id := node] && up == old(up)[id := owner]
      ensures kids == Added(old(kids), owner, at, id, node.kind)
    {
      hide Acyclic, Chain, Graph, Levels.InsertAt, Lists;
      AddKeepsForest(nodes, kids, up, id, node, owner, at);
      nodes := nodes[id := node];
      if node.kind == ProjectNode {
        kids := kids[Some(id) := []];
      }
      kids := kids[owner := Levels.InsertAt(kids[owner], at, id)];
      up := up[id := owner];
    }

    /** `add_project` and `add_conversation`: last in the list of a project, or for a
        project at the top. */
    method Add(id: Id, kind: Kind, owner: Option<Id>, name: string) returns (added: bool)
      requires Valid() && id !in nodes
      modifies this
      ensures Valid()
      ensures added <==> old(Owns(nodes, up, owner)) && (owner == None ==> kind == ProjectNode)
      ensures !added ==> nodes == old(nodes) && kids == old(kids) && up == old(up)
      ensures added ==> up == old(up)[id := owner] && nodes == old(nodes)[id := Node(kind, name, None, None, "", [])]
                        && kids == Added(old(kids), owner, |old(kids[owner])|, id, kind)
    {
      hide Acyclic, Chain, Graph, Levels.InsertAt, Lists;
      if owner == None {
        if kind == ConversationNode {
          return false;
        }
      } else {
        var found := Find(owner.value);
        if !found || nodes[owner.value].kind != ProjectNode {
          return false;
        }
      }
      assert Owns(nodes, up, owner);
      Insert(id, Node(kind, name, None, None, "", []), owner, |kids[owner]|);
      added := true;
    }
  }
}
