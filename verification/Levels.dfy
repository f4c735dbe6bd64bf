/** Sibling order (`place` and `_apply_sort_updates` in `tree_agent/server/services/tree.py`).

  A level is the set of live siblings with their sort keys, read back in key order. The
  reference meaning is a plain list: insert at the clamped index, or remove. */
module Levels {
  import opened Base
  import opened Ids

  /** An `(id, sort_key)` pair. */
  datatype Entry = Entry(id: Id, key: Key)

  datatype Placement = Placement(key: Key, updates: seq<Entry>)

  function Clamp(index: Option<int>, n: nat): (i: nat)
    ensures i <= n
  {
    if index == None || index.value > n then n else if index.value < 0 then 0 else index.value
  }

  function KeyBefore(siblings: seq<Entry>, i: nat): Key
    requires i <= |siblings|
  {
    if i > 0 then siblings[i - 1].key else []
  }

  function KeyAfter(siblings: seq<Entry>, i: nat): Key
    requires i <= |siblings|
  {
    if i < |siblings| then siblings[i].key else []
  }

  /** `place`: a key for position `index`, and the renumbering it forced, if any. */
  function Place(siblings: seq<Entry>, index: Option<int>): (p: Placement)
    ensures p.updates == [] || |p.updates| == |siblings|
    ensures forall j :: 0 <= j < |p.updates| ==> p.updates[j].id == siblings[j].id
  {
    var n := |siblings|;
    var i := Clamp(index, n);
    match Between(KeyBefore(siblings, i), KeyAfter(siblings, i))
    case Rank(key) => Placement(key, [])
    case Exhausted =>
      var spread := Spread(n + 1);
      Placement(spread[i],
                seq(n, p requires 0 <= p < n => Entry(siblings[p].id, spread[if p < i then p else p + 1])))
  }

  // ---------------------------------------------------- one level, in order

  ghost predicate Distinct(entries: seq<Entry>) {
    forall i, j :: 0 <= i < j < |entries| ==> entries[i].id != entries[j].id
  }

  ghost predicate KeysWellFormed(entries: seq<Entry>) {
    forall i :: 0 <= i < |entries| ==> WellFormed(entries[i].key)
  }

  predicate NotAbove(a: Key, b: Key) { !Less(b, a) }

  /** `ORDER BY sort_key`: never decreasing, ties in any order. */
  ghost predicate Sorted(entries: seq<Entry>) {
    forall i, j :: 0 <= i < j < |entries| ==> NotAbove(entries[i].key, entries[j].key)
  }

  ghost predicate StrictlySorted(entries: seq<Entry>) {
    forall i, j :: 0 <= i < j < |entries| ==> Less(entries[i].key, entries[j].key)
  }

  /** The level in list order after `node` was placed, renumbering applied. */
  function Placed(siblings: seq<Entry>, index: Option<int>, node: Id): (r: seq<Entry>)
    ensures |r| == |siblings| + 1
  {
    var i := Clamp(index, |siblings|);
    var p := Place(siblings, index);
    var rest := if p.updates == [] then siblings else p.updates;
    rest[..i] + [Entry(node, p.key)] + rest[i..]
  }

  function InsertAt<T>(s: seq<T>, i: nat, x: T): seq<T>
    requires i <= |s|
  {
    s[..i] + [x] + s[i..]
  }

  function IdsOf(entries: seq<Entry>): (r: seq<Id>)
    ensures |r| == |entries|
  {
    seq(|entries|, i requires 0 <= i < |entries| => entries[i].id)
  }

  lemma LessNotAbove(a: Key, b: Key, c: Key)
    ensures NotAbove(a, b) && Less(b, c) ==> Less(a, c)
    ensures Less(a, b) && NotAbove(b, c) ==> Less(a, c)
    ensures NotAbove(a, b) && NotAbove(b, c) ==> NotAbove(a, c)
    ensures Less(a, b) ==> NotAbove(a, b)
  {
    LessTotal(a, b);
    LessTotal(b, c);
    LessIrreflexive(a);
    if Less(a, b) && Less(b, c) { LessTransitive(a, b, c); }
    if Less(b, a) && Less(a, b) { LessTransitive(a, b, a); }
    if Less(c, a) && Less(a, b) { LessTransitive(c, a, b); }
    if Less(b, c) && Less(c, a) { LessTransitive(b, c, a); }
    if Less(c, a) && Less(b, c) { LessTransitive(b, c, a); }
  }

  predicate GapHasRoom(siblings: seq<Entry>, index: Option<int>) {
    var i := Clamp(index, |siblings|);
    Between(KeyBefore(siblings, i), KeyAfter(siblings, i)).Rank?
  }

  /** Strictly above everything listed before position `i`, strictly below the rest. */
  ghost predicate Separates(siblings: seq<Entry>, i: nat, k: Key)
    requires i <= |siblings|
  {
    (forall j :: 0 <= j < i ==> Less(siblings[j].key, k)) && (forall j :: i <= j < |siblings| ==> Less(k, siblings[j].key))
  }

  /** A rank for a gap, open ends included, is well-formed and inside the gap. */
  lemma RankInGap(before: Key, after: Key)
    requires (before == [] || WellFormed(before)) && (after == [] || WellFormed(after))
    requires Between(before, after).Rank?
    ensures var k := Between(before, after).key;
            WellFormed(k) && (before != [] ==> Less(before, k)) && (after != [] ==> Less(k, after))
  {
    if before == [] {
      BeforeIsPrevious(after);
    } else if after == [] {
      AfterIsNext(before);
    } else {
      BetweenIsBetween(before, after);
    }
  }

  lemma RankFitsGap(siblings: seq<Entry>, index: Option<int>)
    requires KeysWellFormed(siblings) && Sorted(siblings) && GapHasRoom(siblings, index)
    ensures var p := Place(siblings, index); p.updates == [] && WellFormed(p.key)
    ensures Separates(siblings, Clamp(index, |siblings|), Place(siblings, index).key)
  {
    var i := Clamp(index, |siblings|);
    RankInGap(KeyBefore(siblings, i), KeyAfter(siblings, i));
    SpreadsOut(siblings, i, Place(siblings, index).key);
  }

  lemma SpreadsOut(siblings: seq<Entry>, i: nat, k: Key)
    requires Sorted(siblings) && i <= |siblings|
    requires i > 0 ==> Less(siblings[i - 1].key, k)
    requires i < |siblings| ==> Less(k, siblings[i].key)
    ensures Separates(siblings, i, k)
  {
    forall j | 0 <= j < i ensures Less(siblings[j].key, k) {
      LessNotAbove(siblings[j].key, siblings[i - 1].key, k);
    }
    forall j | i <= j < |siblings| ensures Less(k, siblings[j].key) {
      LessNotAbove(k, siblings[i].key, siblings[j].key);
    }
  }

  lemma SeparatorKeepsSorted(siblings: seq<Entry>, i: nat, e: Entry)
    requires i <= |siblings| && Sorted(siblings) && Separates(siblings, i, e.key)
    ensures Sorted(InsertAt(siblings, i, e))
  {
    forall j | 0 <= j < |siblings|
      ensures j < i ==> NotAbove(siblings[j].key, e.key)
      ensures j >= i ==> NotAbove(e.key, siblings[j].key)
    {
      LessNotAbove(siblings[j].key, e.key, []);
      LessNotAbove(e.key, siblings[j].key, []);
    }
  }

  lemma EmptyLevelHasRoom(index: Option<int>)
    ensures GapHasRoom([], index)
  {}

  lemma Renumbered(siblings: seq<Entry>, index: Option<int>, node: Id)
    requires !GapHasRoom(siblings, index)
    ensures Place(siblings, index).updates != []
    ensures forall j :: 0 <= j <= |siblings| ==> Placed(siblings, index, node)[j].key == Spread(|siblings| + 1)[j]
  {
    hide Between, Spread;
    EmptyLevelHasRoom(index);
  }

  lemma SpreadStrict(entries: seq<Entry>)
    requires forall j :: 0 <= j < |entries| ==> entries[j].key == Spread(|entries|)[j]
    ensures KeysWellFormed(entries) && StrictlySorted(entries) && Sorted(entries)
    ensures forall j :: 0 <= j < |entries| ==> |entries[j].key| == Width(|entries|)
  {
    forall j | 0 <= j < |entries| ensures WellFormed(entries[j].key) && |entries[j].key| == Width(|entries|) {
      SpreadAt(|entries|, j);
    }
    forall a, b | 0 <= a < b < |entries| ensures Less(entries[a].key, entries[b].key) && NotAbove(entries[a].key, entries[b].key) {
      SpreadIncreases(|entries|, a, b);
      LessNotAbove(entries[a].key, entries[b].key, []);
    }
  }

  lemma InsertIds(entries: seq<Entry>, i: nat, e: Entry)
    requires i <= |entries|
    ensures IdsOf(InsertAt(entries, i, e)) == InsertAt(IdsOf(entries), i, e.id)
  {}

  lemma PlacedIds(siblings: seq<Entry>, index: Option<int>, node: Id)
    ensures IdsOf(Placed(siblings, index, node)) == InsertAt(IdsOf(siblings), Clamp(index, |siblings|), node)
  {
    var p := Place(siblings, index);
    var rest := if p.updates == [] then siblings else p.updates;
    assert IdsOf(rest) == IdsOf(siblings);
    InsertIds(rest, Clamp(index, |siblings|), Entry(node, p.key));
  }

  /** Placing a node on a level that may hold ties, as a restore can leave behind: either
      nothing else changes and the node lands strictly after everything listed before it
      and strictly before everything listed after it, or the whole level is renumbered
      strictly in its listed order. */
  lemma PlaceAmongTies(siblings: seq<Entry>, index: Option<int>, node: Id)
    requires KeysWellFormed(siblings) && Sorted(siblings)
    ensures KeysWellFormed(Placed(siblings, index, node)) && Sorted(Placed(siblings, index, node))
    ensures if Place(siblings, index).updates == []
            then Separates(siblings, Clamp(index, |siblings|), Place(siblings, index).key)
            else StrictlySorted(Placed(siblings, index, node))
  {
    if GapHasRoom(siblings, index) {
      RankFitsGap(siblings, index);
      SeparatorKeepsSorted(siblings, Clamp(index, |siblings|), Entry(node, Place(siblings, index).key));
    } else {
      Renumbered(siblings, index, node);
      SpreadStrict(Placed(siblings, index, node));
    }
  }

  /** On a strictly increasing level the order stays strict. */
  lemma PlaceKeepsStrict(siblings: seq<Entry>, index: Option<int>, node: Id)
    requires KeysWellFormed(siblings) && StrictlySorted(siblings)
    ensures StrictlySorted(Placed(siblings, index, node)) && KeysWellFormed(Placed(siblings, index, node))
  {
    StrictIsSorted(siblings);
    if GapHasRoom(siblings, index) {
      RankFitsGap(siblings, index);
      InsertKeepsStrict(siblings, Clamp(index, |siblings|), Entry(node, Place(siblings, index).key));
    } else {
      Renumbered(siblings, index, node);
      SpreadStrict(Placed(siblings, index, node));
    }
  }

  lemma InsertKeepsStrict(siblings: seq<Entry>, i: nat, e: Entry)
    requires KeysWellFormed(siblings) && StrictlySorted(siblings) && WellFormed(e.key)
    requires i <= |siblings| && Separates(siblings, i, e.key)
    ensures KeysWellFormed(InsertAt(siblings, i, e)) && StrictlySorted(InsertAt(siblings, i, e))
  {}

  lemma StrictIsSorted(entries: seq<Entry>)
    requires StrictlySorted(entries)
    ensures Sorted(entries)
  {
    forall i, j | 0 <= i < j < |entries| ensures NotAbove(entries[i].key, entries[j].key) {
      LessNotAbove(entries[i].key, entries[j].key, []);
    }
  }

  /** Keys never grow past 49 characters, or past the width of a renumbered level. */
  lemma PlaceKeepsShort(siblings: seq<Entry>, index: Option<int>, node: Id, limit: nat)
    requires KeysWellFormed(siblings) && limit > MAX_RANK_LENGTH && limit >= Width(|siblings| + 1)
    requires forall j :: 0 <= j < |siblings| ==> |siblings[j].key| <= limit
    ensures forall j :: 0 <= j <= |siblings| ==> |Placed(siblings, index, node)[j].key| <= limit
  {
    var i := Clamp(index, |siblings|);
    var before, after := KeyBefore(siblings, i), KeyAfter(siblings, i);
    if !GapHasRoom(siblings, index) {
      Renumbered(siblings, index, node);
      SpreadStrict(Placed(siblings, index, node));
    } else if before == [] {
      BeforeIsPrevious(after);
    } else if after == [] {
      AfterIsNext(before);
    } else {
      BetweenIsBetween(before, after);
    }
  }

  // ----------------------------------------------- the table and its runs

  /** The live siblings of one parent, as the table holds them. */
  type Level = map<Id, Key>

  /** `siblings` is a result the ordered query may return. */
  ghost predicate Lists(level: Level, siblings: seq<Entry>) {
    Distinct(siblings) && Sorted(siblings)
    && (forall i :: 0 <= i < |siblings| ==> siblings[i].id in level && level[siblings[i].id] == siblings[i].key)
    && (forall id :: id in level ==> Listed(siblings, id))
  }

  ghost predicate Listed(siblings: seq<Entry>, id: Id) {
    exists i :: 0 <= i < |siblings| && siblings[i].id == id
  }

  /** `_apply_sort_updates`: one UPDATE per pair. */
  function Applied(level: Level, updates: seq<Entry>): Level {
    if updates == [] then level
    else Applied(level, updates[..|updates| - 1])[updates[|updates| - 1].id := updates[|updates| - 1].key]
  }

  datatype Op = Insert(node: Id, index: Option<int>) | Move(node: Id, index: Option<int>) | Remove(node: Id)

  /** What a create, a move inside the level or a delete does to the table, given what the
      query listed. An arrival from another level is an `Insert`, a departure a `Remove`. */
  function Perform(level: Level, op: Op, siblings: seq<Entry>): Level {
    match op
    case Remove(node) => level - {node}
    case Insert(node, index) =>
      var p := Place(siblings, index);
      Applied(level, p.updates)[node := p.key]
    case Move(node, index) =>
      var p := Place(Except(siblings, node), index);
      Applied(level, p.updates)[node := p.key]
  }

  function Except(siblings: seq<Entry>, node: Id): seq<Entry> {
    if siblings == [] then []
    else (if siblings[0].id == node then [] else [siblings[0]]) + Except(siblings[1..], node)
  }

  predicate Enabled(level: Level, op: Op) {
    match op
    case Insert(node, _) => node !in level
    case Move(node, _) => node in level
    case Remove(node) => node in level
  }

  /** The plain list the level stands for. */
  function Reference(list: seq<Id>, op: Op): seq<Id> {
    match op
    case Remove(node) => Without(list, node)
    case Insert(node, index) => InsertAt(list, Clamp(index, |list|), node)
    case Move(node, index) =>
      var rest := Without(list, node);
      InsertAt(rest, Clamp(index, |rest|), node)
  }

  function Without(list: seq<Id>, node: Id): seq<Id> {
    if list == [] then []
    else (if list[0] == node then [] else [list[0]]) + Without(list[1..], node)
  }

  /** The table holds exactly these nodes, with well-formed keys strictly in list order. */
  ghost predicate Represents(level: Level, list: seq<Id>, limit: nat) {
    (forall i, j :: 0 <= i < j < |list| ==> list[i] != list[j])
    && (forall id :: id in level <==> id in list)
    && (forall i :: 0 <= i < |list| ==> WellFormed(level[list[i]]) && |level[list[i]]| <= limit)
    && (forall i, j :: 0 <= i < j < |list| ==> Less(level[list[i]], level[list[j]]))
  }

  ghost predicate Tabulates(level: Level, entries: seq<Entry>) {
    Distinct(entries)
    && (forall i :: 0 <= i < |entries| ==> entries[i].id in level && level[entries[i].id] == entries[i].key)
    && (forall id :: id in level ==> Listed(entries, id))
  }

  /** Without ties the ordered query has one answer: the reference list. */
  lemma QueryReadsList(level: Level, list: seq<Id>, limit: nat, siblings: seq<Entry>)
    requires Represents(level, list, limit) && Lists(level, siblings)
    ensures IdsOf(siblings) == list && StrictlySorted(siblings) && KeysWellFormed(siblings)
  {
    forall i | 0 <= i < |siblings| ensures WellFormed(siblings[i].key) {
      assert siblings[i].id in list;
    }
    forall i, j | 0 <= i < j < |siblings| ensures Less(siblings[i].key, siblings[j].key) {
      KeysDiffer(level, list, limit, siblings[i].id, siblings[j].id);
      assert NotAbove(siblings[i].key, siblings[j].key);
      LessTotal(siblings[i].key, siblings[j].key);
    }
    SameOrder(level, list, siblings, |siblings|);
    forall x | x in list ensures x in IdsOf(siblings) {
      assert Listed(siblings, x);
      var i :| 0 <= i < |siblings| && siblings[i].id == x;
      assert IdsOf(siblings)[i] == x;
    }
    SameLength(list, IdsOf(siblings));
  }

  lemma KeysDiffer(level: Level, list: seq<Id>, limit: nat, x: Id, y: Id)
    requires Represents(level, list, limit) && x in level && y in level && x != y
    ensures level[x] != level[y]
  {
    assert x in list && y in list;
    LessIrreflexive(level[x]);
  }

  /** Two duplicate-free orders of the same keyed set that both increase are equal. */
  lemma {:induction false} SameOrder(level: Level, list: seq<Id>, siblings: seq<Entry>, n: nat)
    requires n <= |siblings| && Tabulates(level, siblings) && StrictlySorted(siblings)
    requires forall id :: id in level <==> id in list
    requires forall i, j :: 0 <= i < j < |list| ==> list[i] != list[j] && Less(level[list[i]], level[list[j]])
    ensures n <= |list| && forall i :: 0 <= i < n ==> siblings[i].id == list[i]
    decreases n
  {
    if n > 0 {
      SameOrder(level, list, siblings, n - 1);
      SameNext(level, list, siblings, n - 1);
    }
  }

  lemma SameNext(level: Level, list: seq<Id>, siblings: seq<Entry>, n: nat)
    requires n < |siblings| && Tabulates(level, siblings) && StrictlySorted(siblings)
    requires forall id :: id in level <==> id in list
    requires forall i, j :: 0 <= i < j < |list| ==> list[i] != list[j] && Less(level[list[i]], level[list[j]])
    requires n <= |list| && forall i :: 0 <= i < n ==> siblings[i].id == list[i]
    ensures n < |list| && siblings[n].id == list[n]
  {
    hide Less, WellFormed;
    assert siblings[n].id in list;
    var a :| 0 <= a < |list| && list[a] == siblings[n].id;
    assert Listed(siblings, list[n]);
    var b :| 0 <= b < |siblings| && siblings[b].id == list[n];
    Asymmetric(siblings[n].key, level[list[n]]);
  }

  lemma Asymmetric(a: Key, b: Key)
    ensures !(Less(a, b) && Less(b, a))
  {
    LessNotAbove(a, b, []);
  }

  lemma SameLength(list: seq<Id>, other: seq<Id>)
    requires |other| <= |list| && other == list[..|other|]
    requires forall i, j :: 0 <= i < j < |list| ==> list[i] != list[j]
    requires forall x :: x in list ==> x in other
    ensures other == list
  {
    NotEarlier(list, |other|);
  }

  lemma NotEarlier(list: seq<Id>, n: nat)
    requires forall i, j :: 0 <= i < j < |list| ==> list[i] != list[j]
    ensures n < |list| ==> list[n] in list && list[n] !in list[..n]
  {}

  // ------------------------------------------------------------ refinement

  lemma {:induction false} AppliedAt(level: Level, updates: seq<Entry>)
    requires Distinct(updates)
    ensures forall j :: 0 <= j < |updates| ==>
              updates[j].id in Applied(level, updates) && Applied(level, updates)[updates[j].id] == updates[j].key
    ensures forall id :: id in Applied(level, updates) <==> id in level || Listed(updates, id)
    ensures forall id :: id in level && !Listed(updates, id) ==> Applied(level, updates)[id] == level[id]
    decreases |updates|
  {
    if updates != [] {
      var most := updates[..|updates| - 1];
      AppliedAt(level, most);
      forall id ensures Listed(updates, id) <==> Listed(most, id) || id == updates[|updates| - 1].id {
        if Listed(most, id) {
          var i :| 0 <= i < |most| && most[i].id == id;
          assert updates[i].id == id;
        }
        if id == updates[|updates| - 1].id {
          assert updates[|updates| - 1].id == id;
        }
      }
    }
  }

  /** Writing a full set of new keys turns one tabulation into another. */
  lemma RewriteTabulates(level: Level, siblings: seq<Entry>, updates: seq<Entry>, node: Id)
    requires Tabulates(level - {node}, siblings) && |updates| == |siblings|
    requires forall j :: 0 <= j < |siblings| ==> updates[j].id == siblings[j].id
    ensures Tabulates(Applied(level, updates) - {node}, updates)
  {
    assert Distinct(updates) by {
      forall i, j | 0 <= i < j < |updates| ensures updates[i].id != updates[j].id {
        assert siblings[i].id != siblings[j].id;
      }
    }
    AppliedAt(level, updates);
    forall j | 0 <= j < |updates| ensures updates[j].id != node {
      assert siblings[j].id in level - {node};
    }
    forall id | id in Applied(level, updates) - {node} ensures Listed(updates, id) {
      if id in level {
        assert Listed(siblings, id);
        var j :| 0 <= j < |siblings| && siblings[j].id == id;
        assert updates[j].id == id;
      }
    }
  }


  lemma InsertTabulates(level: Level, entries: seq<Entry>, i: nat, e: Entry)
    requires Tabulates(level - {e.id}, entries) && i <= |entries|
    ensures Tabulates(level[e.id := e.key], InsertAt(entries, i, e))
  {
    var r, after := InsertAt(entries, i, e), level[e.id := e.key];
    assert forall j :: 0 <= j < |entries| ==> entries[j].id in level - {e.id};
    forall j | 0 <= j < |r| ensures r[j].id in after && after[r[j].id] == r[j].key {
      assert r[j] == if j < i then entries[j] else if j == i then e else entries[j - 1];
    }
    forall id | id in after ensures Listed(r, id) {
      if id == e.id {
        assert r[i].id == id;
      } else {
        assert Listed(entries, id);
        var j :| 0 <= j < |entries| && entries[j].id == id;
        assert r[if j < i then j else j + 1].id == id;
      }
    }
  }

  /** The rows after a placement are the placed listing. */
  lemma PlacementTabulates(level: Level, siblings: seq<Entry>, index: Option<int>, node: Id)
    requires Tabulates(level - {node}, siblings)
    ensures Tabulates(Applied(level, Place(siblings, index).updates)[node := Place(siblings, index).key],
                      Placed(siblings, index, node))
  {
    var p, i := Place(siblings, index), Clamp(index, |siblings|);
    if p.updates == [] {
      InsertTabulates(level, siblings, i, Entry(node, p.key));
    } else {
      RewriteTabulates(level, siblings, p.updates, node);
      InsertTabulates(Applied(level, p.updates), p.updates, i, Entry(node, p.key));
    }
  }

  lemma Represented(level: Level, entries: seq<Entry>, limit: nat)
    requires Tabulates(level, entries) && StrictlySorted(entries) && KeysWellFormed(entries)
    requires forall j :: 0 <= j < |entries| ==> |entries[j].key| <= limit
    ensures Represents(level, IdsOf(entries), limit)
  {
    var list := IdsOf(entries);
    forall id ensures id in level <==> id in list {
      if id in level {
        assert Listed(entries, id);
        var i :| 0 <= i < |entries| && entries[i].id == id;
        assert list[i] == id;
      }
    }
  }

  lemma {:induction false} ExceptMembers(s: seq<Entry>, node: Id)
    ensures |Except(s, node)| <= |s|
    ensures forall e :: e in Except(s, node) <==> e in s && e.id != node
    decreases |s|
  {
    if s != [] {
      ExceptMembers(s[1..], node);
      assert s == [s[0]] + s[1..];
    }
  }

  /** Renumbering a level touches only its own rows. */
  lemma UpdatesInLevel(level: Level, listing: seq<Entry>, node: Id, index: Option<int>)
    requires Lists(level, listing)
    ensures forall i :: 0 <= i < |Place(listing, index).updates| ==> Place(listing, index).updates[i].id in level
    ensures forall i :: 0 <= i < |Place(Except(listing, node), index).updates| ==> Place(Except(listing, node), index).updates[i].id in level
  {
    ExceptMembers(listing, node);
    var rest := Except(listing, node);
    forall i | 0 <= i < |rest| ensures rest[i].id in level { assert rest[i] in listing; }
  }

  lemma {:induction false} ExceptIds(s: seq<Entry>, node: Id)
    ensures IdsOf(Except(s, node)) == Without(IdsOf(s), node)
    decreases |s|
  {
    if s != [] {
      ExceptIds(s[1..], node);
      assert IdsOf(s)[1..] == IdsOf(s[1..]);
    } else {
      assert IdsOf(s) == [];
    }
  }

  lemma {:induction false} ExceptDistinct(s: seq<Entry>, node: Id)
    requires Distinct(s)
    ensures Distinct(Except(s, node))
    decreases |s|
  {
    if s != [] {
      var rest := Except(s[1..], node);
      ExceptDistinct(s[1..], node);
      ExceptMembers(s[1..], node);
      forall j | 0 <= j < |rest| ensures rest[j].id != s[0].id {
        assert rest[j] in rest && rest[j] in s[1..];
      }
    }
  }

  lemma {:induction false} ExceptStrict(s: seq<Entry>, node: Id)
    requires StrictlySorted(s)
    ensures StrictlySorted(Except(s, node))
    decreases |s|
  {
    if s != [] {
      var rest := Except(s[1..], node);
      ExceptStrict(s[1..], node);
      ExceptMembers(s[1..], node);
      forall j | 0 <= j < |rest| ensures Less(s[0].key, rest[j].key) {
        assert rest[j] in rest && rest[j] in s[1..];
      }
    }
  }

  lemma {:induction false} ExceptSorted(s: seq<Entry>, node: Id)
    requires Sorted(s)
    ensures Sorted(Except(s, node))
    decreases |s|
  {
    if s != [] {
      var rest := Except(s[1..], node);
      ExceptSorted(s[1..], node);
      ExceptMembers(s[1..], node);
      forall j | 0 <= j < |rest| ensures NotAbove(s[0].key, rest[j].key) {
        assert rest[j] in rest && rest[j] in s[1..];
      }
    }
  }

  lemma ExceptTabulates(level: Level, siblings: seq<Entry>, node: Id)
    requires Tabulates(level, siblings)
    ensures Tabulates(level - {node}, Except(siblings, node))
  {
    ExceptDistinct(siblings, node);
    ExceptMembers(siblings, node);
    var r := Except(siblings, node);
    forall i | 0 <= i < |r| ensures r[i].id in level - {node} && level[r[i].id] == r[i].key {
      assert r[i] in r;
    }
    forall id | id in level - {node} ensures Listed(r, id) {
      assert Listed(siblings, id);
      var i :| 0 <= i < |siblings| && siblings[i].id == id;
      assert siblings[i] in r;
      var j :| 0 <= j < |r| && r[j] == siblings[i];
      assert r[j].id == id;
    }
  }

  lemma ExceptShort(siblings: seq<Entry>, node: Id, limit: nat)
    requires Distinct(siblings) && StrictlySorted(siblings) && KeysWellFormed(siblings)
    requires forall j :: 0 <= j < |siblings| ==> |siblings[j].key| <= limit
    ensures var r := Except(siblings, node);
            StrictlySorted(r) && KeysWellFormed(r) && |r| <= |siblings|
            && (forall j :: 0 <= j < |r| ==> |r[j].key| <= limit)
            && IdsOf(r) == Without(IdsOf(siblings), node)
  {
    ExceptStrict(siblings, node);
    ExceptMembers(siblings, node);
    ExceptIds(siblings, node);
    var r := Except(siblings, node);
    assert forall j :: 0 <= j < |r| ==> r[j] in r;
  }

  /** One operation on the table is the same operation on the list, and the invariant is
      kept: distinct nodes, keys strictly increasing, well-formed and short. */
  lemma StepRefines(level: Level, list: seq<Id>, op: Op, siblings: seq<Entry>, limit: nat)
    requires Represents(level, list, limit) && Lists(level, siblings) && Enabled(level, op)
    requires limit > MAX_RANK_LENGTH && forall n :: 0 <= n <= |list| + 1 ==> Width(n) <= limit
    ensures Represents(Perform(level, op, siblings), Reference(list, op), limit)
  {
    QueryReadsList(level, list, limit, siblings);
    forall j | 0 <= j < |siblings| ensures |siblings[j].key| <= limit {
      assert siblings[j].id == list[j];
    }
    match op {
      case Insert(node, index) =>
        assert level - {node} == level;
        PlacementRefines(level, siblings, node, index, limit);
      case Move(node, index) =>
        ExceptTabulates(level, siblings, node);
        ExceptShort(siblings, node, limit);
        PlacementRefines(level, Except(siblings, node), node, index, limit);
      case Remove(node) =>
        ExceptTabulates(level, siblings, node);
        ExceptShort(siblings, node, limit);
        Represented(level - {node}, Except(siblings, node), limit);
    }
  }

  /** A level that stands for a list can be listed in that order. */
  lemma SomeAnswer(level: Level, list: seq<Id>, limit: nat) returns (siblings: seq<Entry>)
    requires Represents(level, list, limit)
    ensures Lists(level, siblings)
  {
    siblings := seq(|list|, i requires 0 <= i < |list| => Entry(list[i], level[list[i]]));
    forall i, j | 0 <= i < j < |siblings| ensures NotAbove(siblings[i].key, siblings[j].key) {
      LessNotAbove(siblings[i].key, siblings[j].key, siblings[j].key);
    }
    forall id | id in level ensures Listed(siblings, id) {
      var i :| 0 <= i < |list| && list[i] == id;
      assert siblings[i].id == id;
    }
  }

  /** A removal needs no listing. */
  lemma RemovalRefines(level: Level, list: seq<Id>, node: Id, limit: nat)
    requires Represents(level, list, limit) && node in level
    requires limit > MAX_RANK_LENGTH && forall n :: 0 <= n <= |list| + 1 ==> Width(n) <= limit
    ensures Represents(level - {node}, Without(list, node), limit)
  {
    var siblings := SomeAnswer(level, list, limit);
    StepRefines(level, list, Remove(node), siblings, limit);
  }

  lemma PlacementRefines(level: Level, siblings: seq<Entry>, node: Id, index: Option<int>, limit: nat)
    requires Tabulates(level - {node}, siblings) && StrictlySorted(siblings) && KeysWellFormed(siblings)
    requires forall j :: 0 <= j < |siblings| ==> |siblings[j].key| <= limit
    requires limit > MAX_RANK_LENGTH && Width(|siblings| + 1) <= limit
    ensures var p := Place(siblings, index);
            Represents(Applied(level, p.updates)[node := p.key],
                       InsertAt(IdsOf(siblings), Clamp(index, |siblings|), node), limit)
  {
    PlacementTabulates(level, siblings, index, node);
    PlaceKeepsStrict(siblings, index, node);
    PlaceKeepsShort(siblings, index, node, limit);
    PlacedIds(siblings, index, node);
    Represented(Applied(level, Place(siblings, index).updates)[node := Place(siblings, index).key],
                Placed(siblings, index, node), limit);
  }

  /** A run: each operation reads one possible listing and writes the next table. */
  ghost predicate Run(levels: seq<Level>, ops: seq<Op>, listings: seq<seq<Entry>>) {
    |levels| == |ops| + 1 && |listings| == |ops| && levels[0] == map[]
    && forall i :: 0 <= i < |ops| ==>
         Lists(levels[i], listings[i]) && Enabled(levels[i], ops[i])
         && levels[i + 1] == Perform(levels[i], ops[i], listings[i])
  }

  function ReferenceRun(ops: seq<Op>): seq<Id> {
    if ops == [] then [] else Reference(ReferenceRun(ops[..|ops| - 1]), ops[|ops| - 1])
  }

  /** Over any run from the empty level the sorted table is the plain list, and no key is
      longer than 49 characters unless the level itself needs wider numbers. */
  lemma {:induction false} RunRefines(levels: seq<Level>, ops: seq<Op>, listings: seq<seq<Entry>>, limit: nat)
    requires Run(levels, ops, listings)
    requires limit > MAX_RANK_LENGTH && forall n :: 0 <= n <= |ops| + 1 ==> Width(n) <= limit
    ensures Represents(levels[|ops|], ReferenceRun(ops), limit) && |ReferenceRun(ops)| <= |ops|
    decreases |ops|
  {
    if ops != [] {
      var n := |ops| - 1;
      RunRefines(levels[..n + 1], ops[..n], listings[..n], limit);
      StepRefines(levels[n], ReferenceRun(ops[..n]), ops[n], listings[n], limit);
      WithoutShrinks(ReferenceRun(ops[..n]), levels[n], ops[n], limit);
    }
  }

  lemma WithoutShrinks(list: seq<Id>, level: Level, op: Op, limit: nat)
    requires Represents(level, list, limit) && Enabled(level, op)
    ensures |Reference(list, op)| <= |list| + 1
  {
    WithoutLength(list, op.node);
  }

  lemma {:induction false} WithoutLength(list: seq<Id>, node: Id)
    ensures |Without(list, node)| <= |list|
    decreases |list|
  {
    if list != [] { WithoutLength(list[1..], node); }
  }

  /** For every level that could exist the bound is 49 characters. */
  lemma RunKeepsKeysShort(levels: seq<Level>, ops: seq<Op>, listings: seq<seq<Entry>>)
    requires Run(levels, ops, listings) && (|ops| + 2) * 4 <= Pow(MAX_RANK_LENGTH)
    ensures Represents(levels[|ops|], ReferenceRun(ops), MAX_RANK_LENGTH + 1)
  {
    forall n | 0 <= n <= |ops| + 1 ensures Width(n) <= MAX_RANK_LENGTH + 1 {
      WidthExact(n, MAX_RANK_LENGTH + 1);
      PowMonotone(MAX_RANK_LENGTH, MAX_RANK_LENGTH + 1);
    }
    RunRefines(levels, ops, listings, MAX_RANK_LENGTH + 1);
  }
}
