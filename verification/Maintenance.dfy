/** Retention (`tree_agent/server/services/maintenance.py`). */
module Maintenance {
  import opened Base
  import opened Tables
  import opened Files
  import opened Schema
  import opened Indexing

  const MIN_RETENTION_DAYS: nat := 30
  const DAY_MS: nat := 86400000

  // ------------------------------------------------------------------- sweep

  function Swept(f: Files, now: int): Files { PurgeFinished(ExpireStale(f, now), now - 7 * DAY_MS) }

  lemma SweepKeeps(d: Database, sha: Bytes -> Digest, now: int)
    requires Inv(d, sha)
    ensures Inv(d.(files := Swept(d.files, now)), sha)
  {
    ExpireStaleKeeps(d.files, sha, now);
    PurgeFinishedKeeps(ExpireStale(d.files, now), sha, now - 7 * DAY_MS);
  }


  /** The upload part of `sweep`. */
  method Sweep(db: Handle, now: int)
    modifies db
    ensures db.tables == old(db.tables).(files := Swept(old(db.tables.files), now))
  {
    db.tables := db.tables.(files := ExpireStale(db.tables.files, now));
    db.tables := db.tables.(files := PurgeFinished(db.tables.files, now - 7 * DAY_MS));
  }

  // --------------------------------------------------------------- selection

  predicate Due(stamp: Option<Stamp>, cutoff: Stamp) { stamp.Some? && stamp.value <= cutoff }

  function DueProjects(p: Projects, cutoff: Stamp): set<Id> { set id | id in p && Due(p[id].deletedAt, cutoff) }

  function DueConversations(c: Conversations, cutoff: Stamp): set<Id> { set id | id in c && Due(c[id].deletedAt, cutoff) }

  /** `_message_ids_to_purge`: old deleted messages, and everything in a conversation that goes. */
  function DueMessages(c: Conversations, m: Messages, cutoff: Stamp): set<Id> {
    (set id | id in m && Due(m[id].deletedAt, cutoff))
    + set id | id in m && m[id].conversation in DueConversations(c, cutoff)
  }

  /** The second query adds nothing: what lies in an old deleted conversation is itself
      deleted and old. */
  lemma DueMessagesExact(c: Conversations, m: Messages, cutoff: Stamp, id: Id)
    requires MessageStamps(c, m) && MessagesLinked(c, m)
    ensures id in DueMessages(c, m, cutoff) <==> id in m && Due(m[id].deletedAt, cutoff)
  {
    if id in m { assert NotLater(m[id].deletedAt, c[m[id].conversation].deletedAt); }
  }

  /** Below an old deleted project everything is old and deleted too. */
  lemma DueClosed(p: Projects, c: Conversations, cutoff: Stamp)
    requires ProjectsLinked(p) && ConversationsLinked(p, c) && ProjectStamps(p) && ConversationStamps(p, c)
    ensures forall id :: id in p && p[id].parent.Some? && p[id].parent.value in DueProjects(p, cutoff) ==> id in DueProjects(p, cutoff)
    ensures forall id :: id in c && c[id].project in DueProjects(p, cutoff) ==> id in DueConversations(c, cutoff)
  {
    forall id | id in p && p[id].parent.Some? && p[id].parent.value in DueProjects(p, cutoff) ensures id in DueProjects(p, cutoff) {
      assert NotLater(p[id].deletedAt, p[p[id].parent.value].deletedAt);
    }
    forall id | id in c && c[id].project in DueProjects(p, cutoff) ensures id in DueConversations(c, cutoff) {
      assert NotLater(c[id].deletedAt, p[c[id].project].deletedAt);
    }
  }

  // ------------------------------------------------------------ deepest first

  const DEPTH_GUARD: nat := 500

  /** How many parent links lead up from `id`, counting at most `guard`. */
  function Level(p: Projects, id: Id, guard: nat): nat
    decreases guard
  {
    if guard == 0 || id !in p || p[id].parent == None then 0 else 1 + Level(p, p[id].parent.value, guard - 1)
  }

  lemma {:induction false} LevelCounts(p: Projects, id: Id, n: nat, guard: nat)
    requires Chain(p, id, n)
    ensures Level(p, id, guard) == if n - 1 <= guard then n - 1 else guard
    decreases n
  {
    if guard > 0 && p[id].parent.Some? { LevelCounts(p, p[id].parent.value, n - 1, guard - 1); }
  }

  method FindLevel(p: Projects, id: Id) returns (level: nat)
    ensures level == Level(p, id, DEPTH_GUARD)
  {
    level := 0;
    var current, guard := id, 0;
    while current in p && p[current].parent.Some? && guard < DEPTH_GUARD
      invariant guard <= DEPTH_GUARD && level + Level(p, current, DEPTH_GUARD - guard) == Level(p, id, DEPTH_GUARD)
      decreases DEPTH_GUARD - guard
    {
      current := p[current].parent.value;
      level := level + 1;
      guard := guard + 1;
    }
  }

  /** A stable sort by falling level: `x` goes before everything not deeper than it. */
  function Sink(p: Projects, x: Id, sorted: seq<Id>): (r: seq<Id>)
    ensures forall y :: y in r <==> y == x || y in sorted
    ensures |r| == |sorted| + 1
  {
    if sorted == [] || Level(p, x, DEPTH_GUARD) >= Level(p, sorted[0], DEPTH_GUARD) then [x] + sorted
    else [sorted[0]] + Sink(p, x, sorted[1..])
  }

  /** `_deepest_first` */
  function DeepestFirst(p: Projects, order: seq<Id>): (r: seq<Id>)
    ensures forall y :: y in r <==> y in order
  {
    if order == [] then [] else Sink(p, order[0], DeepestFirst(p, order[1..]))
  }

  ghost predicate Falling(p: Projects, s: seq<Id>) {
    forall i, j :: 0 <= i < j < |s| ==> Level(p, s[i], DEPTH_GUARD) >= Level(p, s[j], DEPTH_GUARD)
  }

  lemma {:induction false} SinkFalls(p: Projects, x: Id, sorted: seq<Id>)
    requires Falling(p, sorted)
    ensures Falling(p, Sink(p, x, sorted))
    decreases |sorted|
  {
    if sorted != [] && Level(p, x, DEPTH_GUARD) < Level(p, sorted[0], DEPTH_GUARD) {
      SinkFalls(p, x, sorted[1..]);
      var r := Sink(p, x, sorted[1..]);
      forall j | 0 <= j < |r| ensures Level(p, sorted[0], DEPTH_GUARD) >= Level(p, r[j], DEPTH_GUARD) {
        if r[j] != x { assert r[j] in sorted[1..]; }
      }
    }
  }

  lemma {:induction false} DeepestFirstFalls(p: Projects, order: seq<Id>)
    ensures Falling(p, DeepestFirst(p, order))
    decreases |order|
  {
    if order != [] {
      DeepestFirstFalls(p, order[1..]);
      SinkFalls(p, order[0], DeepestFirst(p, order[1..]));
    }
  }

  /** Deleting `s[0]`, `s[1]`, ... one by one never leaves a dangling parent link. */
  ghost predicate ChildrenFirst(p: Projects, s: seq<Id>) {
    forall k: nat :: k <= |s| ==> ProjectsLinked(p - IdSet(s[..k]))
  }

  /** The level of every parent in the set is counted before the guard stops the count. */
  ghost predicate Countable(p: Projects, ids: set<Id>) {
    forall id :: id in ids && id in p && p[id].parent.Some? && p[id].parent.value in ids ==> Level(p, p[id].parent.value, DEPTH_GUARD) < DEPTH_GUARD
  }

  ghost predicate ClosedDown(p: Projects, ids: set<Id>) {
    ids <= p.Keys && forall id {:trigger p[id].parent} :: id in p && p[id].parent.Some? && p[id].parent.value in ids ==> id in ids
  }

  lemma ShallowIsCountable(p: Projects, ids: set<Id>)
    requires Acyclic(p) && ProjectsLinked(p) && Shallow(p)
    ensures Countable(p, ids)
  {
    forall id | id in ids && id in p && p[id].parent.Some? && p[id].parent.value in ids
      ensures Level(p, p[id].parent.value, DEPTH_GUARD) < DEPTH_GUARD
    {
      assert Rooted(p, p[id].parent.value);
      var n: nat :| Chain(p, p[id].parent.value, n);
      LevelCounts(p, p[id].parent.value, n, DEPTH_GUARD);
    }
  }

  lemma ChildIsDeeper(p: Projects, id: Id)
    requires Acyclic(p) && id in p && p[id].parent.Some? && p[id].parent.value in p
    ensures var up := Level(p, p[id].parent.value, DEPTH_GUARD);
            Level(p, id, DEPTH_GUARD) == if up < DEPTH_GUARD then up + 1 else DEPTH_GUARD
  {
    assert Rooted(p, p[id].parent.value);
    var n: nat :| Chain(p, p[id].parent.value, n);
    assert Chain(p, id, n + 1);
    LevelCounts(p, p[id].parent.value, n, DEPTH_GUARD);
    LevelCounts(p, id, n + 1, DEPTH_GUARD);
  }

  lemma SplitAt(s: seq<Id>, k: nat, up: Id, id: Id) returns (i: nat, j: nat)
    requires k <= |s| && up in s[..k] && id in s && id !in s[..k]
    ensures i < k <= j < |s| && s[i] == up && s[j] == id
  {
    i :| 0 <= i < k && s[..k][i] == up;
    assert s == s[..k] + s[k..];
    var m :| 0 <= m < |s| - k && s[k..][m] == id;
    j := k + m;
  }

  lemma ParentRemains(p: Projects, order: seq<Id>, k: nat, id: Id)
    requires Acyclic(p) && ProjectsLinked(p) && ClosedDown(p, IdSet(order)) && Countable(p, IdSet(order))
    requires Falling(p, DeepestFirst(p, order)) && k <= |DeepestFirst(p, order)|
    requires id in p && id !in DeepestFirst(p, order)[..k] && p[id].parent.Some?
    ensures p[id].parent.value in p && p[id].parent.value !in DeepestFirst(p, order)[..k]
  {
    hide DeepestFirst, Level;
    var s, up := DeepestFirst(p, order), p[id].parent.value;
    if up in s[..k] {
      assert up in s && up in IdSet(order) && id in IdSet(order) && id in s;
      var i, j := SplitAt(s, k, up, id);
      ChildIsDeeper(p, id);
    }
  }

  lemma DeepestFirstSafe(p: Projects, order: seq<Id>)
    requires Acyclic(p) && ProjectsLinked(p) && ClosedDown(p, IdSet(order)) && Countable(p, IdSet(order))
    ensures ChildrenFirst(p, DeepestFirst(p, order))
  {
    hide Falling, DeepestFirst, Acyclic, ClosedDown, Countable;
    var s := DeepestFirst(p, order);
    DeepestFirstFalls(p, order);
    forall k: nat, id: Id | k <= |s| && id in p - IdSet(s[..k]) && p[id].parent.Some?
      ensures p[id].parent.value in p - IdSet(s[..k])
    {
      ParentRemains(p, order, k, id);
    }
  }

  lemma PrependSet(id: Id, rest: seq<Id>)
    ensures IdSet([id] + rest) == {id} + IdSet(rest)
  {
    forall x ensures x in [id] + rest <==> x == id || x in rest {}
  }

  lemma {:induction false} SomeListing(ids: set<Id>) returns (order: seq<Id>)
    ensures IdSet(order) == ids
    decreases ids
  {
    if ids == {} {
      order := [];
    } else {
      var id :| id in ids;
      var rest := SomeListing(ids - {id});
      order := [id] + rest;
      PrependSet(id, rest);
    }
  }

  /** The order is safe, whatever order the rows were listed in, exactly when the guard of
      the depth count never cuts a level short: with a purged chain of more than 501 rows
      two levels can tie, and a parent can then go before its child. */
  lemma DeepestFirstExact(p: Projects, ids: set<Id>)
    requires Acyclic(p) && ProjectsLinked(p) && ClosedDown(p, ids)
    ensures (forall order: seq<Id> :: IdSet(order) == ids ==> ChildrenFirst(p, DeepestFirst(p, order))) <==> Countable(p, ids)
  {
    if Countable(p, ids) {
      forall order: seq<Id> | IdSet(order) == ids ensures ChildrenFirst(p, DeepestFirst(p, order)) {
        DeepestFirstSafe(p, order);
      }
    } else {
      var id :| id in ids && id in p && p[id].parent.Some? && p[id].parent.value in ids
                && Level(p, p[id].parent.value, DEPTH_GUARD) >= DEPTH_GUARD;
      var order := ParentGoesFirst(p, ids, id);
    }
  }

  lemma {:induction false} LevelCapped(p: Projects, id: Id, guard: nat)
    ensures Level(p, id, guard) <= guard
    decreases guard
  {
    if !(guard == 0 || id !in p || p[id].parent == None) { LevelCapped(p, p[id].parent.value, guard - 1); }
  }

  lemma ParentGoesFirst(p: Projects, ids: set<Id>, id: Id) returns (order: seq<Id>)
    requires Acyclic(p) && id in ids && ids <= p.Keys && p[id].parent.Some? && p[id].parent.value in ids
    requires Level(p, p[id].parent.value, DEPTH_GUARD) >= DEPTH_GUARD
    ensures IdSet(order) == ids && !ChildrenFirst(p, DeepestFirst(p, order))
  {
    var up := p[id].parent.value;
    var rest := SomeListing(ids - {up});
    order := [up] + rest;
    PrependSet(up, rest);
    var sorted := DeepestFirst(p, rest);
    assert order[0] == up && order[1..] == rest;
    if sorted != [] { LevelCapped(p, sorted[0], DEPTH_GUARD); }
    var s := DeepestFirst(p, order);
    assert s == [up] + sorted;
    assert IdSet(s[..1]) == {up};
    assert Rooted(p, id);
    var n: nat :| Chain(p, id, n);
    if id == up { ChainUnique(p, id, n, n - 1); }
    assert id in p - {up} && (p - {up})[id].parent.value == up;
    assert !ProjectsLinked(p - IdSet(s[..1]));
  }

  /** One look at a position: past it, or there. */
  lemma SinkHere(p: Projects, x: Id, sorted: seq<Id>, k: nat)
    requires k <= |sorted|
    ensures if k < |sorted| && Level(p, x, DEPTH_GUARD) < Level(p, sorted[k], DEPTH_GUARD)
            then sorted[..k] + Sink(p, x, sorted[k..]) == sorted[..k + 1] + Sink(p, x, sorted[k + 1..])
            else sorted[..k] + Sink(p, x, sorted[k..]) == sorted[..k] + [x] + sorted[k..]
  {
    hide Level;
    if k < |sorted| {
      assert sorted[k..][0] == sorted[k] && sorted[k..][1..] == sorted[k + 1..] && sorted[..k + 1] == sorted[..k] + [sorted[k]];
    }
  }

  /** `sorted(..., key=...)`: insert `x` where it belongs. */
  method SinkInto(p: Projects, depth: map<Id, nat>, x: Id, sorted: seq<Id>) returns (r: seq<Id>)
    requires x in depth && forall id :: id in sorted ==> id in depth
    requires forall id :: id in depth ==> depth[id] == Level(p, id, DEPTH_GUARD)
    ensures r == Sink(p, x, sorted)
  {
    hide Level, Sink;
    SinkHere(p, x, sorted, 0);
    assert sorted[..0] == [] && sorted[0..] == sorted && [] + Sink(p, x, sorted) == Sink(p, x, sorted);
    var k := 0;
    while k < |sorted| && depth[x] < depth[sorted[k]]
      invariant 0 <= k <= |sorted| && Sink(p, x, sorted) == sorted[..k] + Sink(p, x, sorted[k..])
    {
      SinkHere(p, x, sorted, k);
      k := k + 1;
    }
    SinkHere(p, x, sorted, k);
    r := sorted[..k] + [x] + sorted[k..];
  }

  /** `_deepest_first`: a depth for every row, then a stable sort. */
  method SortDeepestFirst(p: Projects, order: seq<Id>) returns (r: seq<Id>)
    ensures r == DeepestFirst(p, order)
  {
    var depth: map<Id, nat> := map[];
    for i := 0 to |order|
      invariant forall j :: 0 <= j < i ==> order[j] in depth
      invariant forall id :: id in depth ==> depth[id] == Level(p, id, DEPTH_GUARD)
    {
      var level := FindLevel(p, order[i]);
      depth := depth[order[i] := level];
    }
    r := [];
    for i := |order| downto 0
      invariant r == DeepestFirst(p, order[i..])
    {
      assert order[i..][0] == order[i] && order[i..][1..] == order[i + 1..];
      r := SinkInto(p, depth, order[i], r);
    }
  }
}
