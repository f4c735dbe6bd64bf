/** Reading a transcript a page at a time (`list_page` in
  `tree_agent/server/repositories/messages.py`, `list_messages` in
  `tree_agent/server/services/messages.py`, `iter_messages` in `tree_agent/client_api.py`),
  while others write. */
module Paging {
  import opened Base
  import opened Levels
  import opened Tables
  import opened Files
  import opened Schema
  import opened Indexing
  import opened ProjectJobs
  import opened ConversationJobs
  import opened MessageJobs
  import opened ForkJob
  import opened AttachmentJobs
  import opened Maintenance
  import opened Purge
  import opened Runs

  const PAGE_MAX: int := 1000

  /** `max(1, min(limit, 1000))` */
  function PageSize(limit: int): (n: nat)
    ensures 1 <= n <= PAGE_MAX
  {
    if limit < 1 then 1 else if limit > PAGE_MAX then PAGE_MAX else limit
  }

  /** A row as the client sees it. */
  datatype Row = Row(id: Id, number: nat)

  predicate Listable(m: Messages, c: Id, after: Option<nat>, before: Option<nat>, id: Id) {
    LiveMessage(m, id) && m[id].conversation == c
    && (after.Some? ==> m[id].sequenceNo > after.value) && (before.Some? ==> m[id].sequenceNo < before.value)
  }

  ghost predicate Increasing(rows: seq<Row>) { forall i, j :: 0 <= i < j < |rows| ==> rows[i].number < rows[j].number }

  /** The first rows after one cursor and before the other in transcript order: all of them,
      or a full page and nothing skipped before its last row. */
  ghost predicate IsPage(m: Messages, c: Id, after: Option<nat>, before: Option<nat>, size: nat, rows: seq<Row>) {
    |rows| <= size && Increasing(rows)
    && (forall i :: 0 <= i < |rows| ==> Listable(m, c, after, before, rows[i].id) && rows[i].number == m[rows[i].id].sequenceNo)
    && (forall id :: Listable(m, c, after, before, id) && Row(id, m[id].sequenceNo) !in rows ==>
          |rows| == size && size > 0 && m[id].sequenceNo > rows[size - 1].number)
  }

  lemma {:induction false} HasLeast(m: Messages, ids: set<Id>) returns (least: Id)
    requires ids != {} && ids <= m.Keys
    ensures least in ids && forall id :: id in ids ==> m[least].sequenceNo <= m[id].sequenceNo
    decreases |ids|
  {
    var first :| first in ids;
    var rest := ids - {first};
    assert forall id :: id in ids ==> id == first || id in rest;
    least := first;
    if rest != {} {
      var other := HasLeast(m, rest);
      if m[other].sequenceNo < m[first].sequenceNo { least := other; }
    }
  }

  /** A page being filled: `rest` is what could still follow. */
  ghost predicate Partial(m: Messages, c: Id, after: Option<nat>, before: Option<nat>, rows: seq<Row>, rest: set<Id>) {
    Increasing(rows)
    && (forall i :: 0 <= i < |rows| ==> RowOf(m, c, after, before, rows[i]))
    && (forall id :: id in rest ==> id in m && Listable(m, c, after, before, id))
    && (forall id :: id in m && Listable(m, c, after, before, id) ==> id in rest || Row(id, m[id].sequenceNo) in rows)
    && (forall id :: id in rest ==> rows != [] ==> rows[|rows| - 1].number < m[id].sequenceNo)
  }

  predicate RowOf(m: Messages, c: Id, after: Option<nat>, before: Option<nat>, row: Row) {
    row.id in m && Listable(m, c, after, before, row.id) && row.number == m[row.id].sequenceNo
  }

  /** What could still follow the least row has a higher number. */
  lemma RestIsHigher(m: Messages, c: Id, after: Option<nat>, before: Option<nat>, rest: set<Id>, least: Id)
    requires SequencesUnique(m) && least in rest && forall id :: id in rest ==> id in m && Listable(m, c, after, before, id)
    requires forall id :: id in rest ==> m[least].sequenceNo <= m[id].sequenceNo
    ensures forall id :: id in rest && id != least ==> m[least].sequenceNo < m[id].sequenceNo
  {}

  lemma TakeLeast(m: Messages, c: Id, after: Option<nat>, before: Option<nat>, rows: seq<Row>, rest: set<Id>, least: Id)
    requires SequencesUnique(m) && Partial(m, c, after, before, rows, rest) && least in rest
    requires forall id :: id in rest ==> m[least].sequenceNo <= m[id].sequenceNo
    ensures Partial(m, c, after, before, rows + [Row(least, m[least].sequenceNo)], rest - {least})
  {
    hide Listable, SequencesUnique;
    var more := rows + [Row(least, m[least].sequenceNo)];
    assert more[|rows|] == Row(least, m[least].sequenceNo);
    RestIsHigher(m, c, after, before, rest, least);
    forall id | id in m && Listable(m, c, after, before, id) ensures id in rest - {least} || Row(id, m[id].sequenceNo) in more {
      if Row(id, m[id].sequenceNo) in rows { assert Row(id, m[id].sequenceNo) in more; }
    }
  }

  lemma PageEmpty(m: Messages, c: Id, after: Option<nat>, before: Option<nat>, rest: set<Id>)
    requires forall id :: id in rest <==> id in m && Listable(m, c, after, before, id)
    ensures Partial(m, c, after, before, [], rest)
  {}

  lemma PageFull(m: Messages, c: Id, after: Option<nat>, before: Option<nat>, rows: seq<Row>, rest: set<Id>, size: nat)
    requires Partial(m, c, after, before, rows, rest) && (|rows| == size > 0 || (|rows| <= size && rest == {}))
    ensures IsPage(m, c, after, before, size, rows)
  {}

  /** `list_page` */
  method ListPage(m: Messages, c: Id, after: Option<nat>, before: Option<nat>, limit: int) returns (rows: seq<Row>)
    requires SequencesUnique(m)
    ensures IsPage(m, c, after, before, PageSize(limit), rows)
  {
    hide Partial, IsPage, Listable, SequencesUnique;
    rows := [];
    var rest := set id | id in m && Listable(m, c, after, before, id);
    PageEmpty(m, c, after, before, rest);
    while |rows| < PageSize(limit) && rest != {}
      invariant |rows| <= PageSize(limit) && rest <= m.Keys && Partial(m, c, after, before, rows, rest)
      decreases |rest|
    {
      ghost var some := HasLeast(m, rest);
      var least :| least in rest && forall id | id in rest :: m[least].sequenceNo <= m[id].sequenceNo;
      TakeLeast(m, c, after, before, rows, rest, least);
      rows := rows + [Row(least, m[least].sequenceNo)];
      rest := rest - {least};
    }
    PageFull(m, c, after, before, rows, rest, PageSize(limit));
  }

  /** Every listable row that is not on the page comes before it. */
  ghost predicate NothingAfter(m: Messages, c: Id, after: Option<nat>, before: Option<nat>, rows: seq<Row>) {
    forall id :: Listable(m, c, after, before, id) && Row(id, m[id].sequenceNo) !in rows ==>
      rows != [] && m[id].sequenceNo < rows[0].number
  }

  function Listed(m: Messages, c: Id, after: Option<nat>, before: Option<nat>): set<Id> {
    set id | id in m && Listable(m, c, after, before, id)
  }

  /** The messages on a page. */
  function OnPage(rows: seq<Row>): (ids: set<Id>)
    ensures forall id :: id in ids <==> exists i :: 0 <= i < |rows| && rows[i].id == id
  {
    if rows == [] then {} else OnPage(rows[..|rows| - 1]) + {rows[|rows| - 1].id}
  }

  /** As many as rows. */
  lemma {:induction false} RowsDiffer(rows: seq<Row>, m: Messages)
    requires Increasing(rows) && forall i :: 0 <= i < |rows| ==> rows[i].id in m && rows[i].number == m[rows[i].id].sequenceNo
    ensures |OnPage(rows)| == |rows|
    decreases |rows|
  {
    if rows != [] {
      var rest := rows[..|rows| - 1];
      RowsDiffer(rest, m);
      assert rows[|rows| - 1].id !in OnPage(rest);
    }
  }

  lemma PageIsListed(m: Messages, c: Id, after: Option<nat>, before: Option<nat>, size: nat, rows: seq<Row>)
    requires IsPage(m, c, after, before, size, rows)
    ensures OnPage(rows) <= Listed(m, c, after, before) && |OnPage(rows)| == |rows| <= size
  {
    RowsDiffer(rows, m);
  }

  /** Nothing listable is left out of a page with nothing after it. */
  lemma NothingLeftOut(m: Messages, c: Id, after: Option<nat>, before: Option<nat>, size: nat, rows: seq<Row>)
    requires IsPage(m, c, after, before, size, rows) && NothingAfter(m, c, after, before, rows)
    ensures Listed(m, c, after, before) <= OnPage(rows)
  {
    assert rows != [] ==> rows[0].number <= rows[|rows| - 1].number;
    forall id | Listable(m, c, after, before, id) ensures Row(id, m[id].sequenceNo) in rows {}
    forall id | id in Listed(m, c, after, before) ensures id in OnPage(rows) {
      var i :| 0 <= i < |rows| && rows[i] == Row(id, m[id].sequenceNo);
      assert rows[i].id == id;
    }
  }

  lemma SomeLeftOut(m: Messages, c: Id, after: Option<nat>, before: Option<nat>, size: nat, rows: seq<Row>) returns (id: Id)
    requires IsPage(m, c, after, before, size, rows) && size > 0 && !NothingAfter(m, c, after, before, rows)
    ensures id in Listed(m, c, after, before) && id !in OnPage(rows) && |rows| == size
  {
    id :| Listable(m, c, after, before, id) && Row(id, m[id].sequenceNo) !in rows
          && !(rows != [] && m[id].sequenceNo < rows[0].number);
  }

  /** A page is also the last one before its upper cursor exactly when it is the only one:
      when no more rows than fit on it lie between the cursors. */
  lemma LastPageExactly(m: Messages, c: Id, after: Option<nat>, before: Option<nat>, size: nat, rows: seq<Row>)
    requires IsPage(m, c, after, before, size, rows) && size > 0
    ensures NothingAfter(m, c, after, before, rows) <==> |Listed(m, c, after, before)| <= size
  {
    hide IsPage, Listable, NothingAfter, Listed, OnPage;
    var all, on := Listed(m, c, after, before), OnPage(rows);
    PageIsListed(m, c, after, before, size, rows);
    if NothingAfter(m, c, after, before, rows) {
      NothingLeftOut(m, c, after, before, size, rows);
      SubsetSize(all, on);
    } else {
      var id := SomeLeftOut(m, c, after, before, size, rows);
      SubsetSize(on + {id}, all);
    }
  }

  /** What a walk over these states of the table has yielded: rows in rising order, each
      live when its page was read; if the walk ended, every message that was live in the
      conversation under one number in every state it read. */
  ghost predicate Walked(snapshots: seq<Messages>, c: Id, yielded: seq<Row>, finished: bool, used: nat) {
    used <= |snapshots| && Increasing(yielded)
    && AllSeen(snapshots[..used], c, yielded) && (finished ==> AllCovered(snapshots[..used], c, yielded, None))
    && (!finished ==> used == |snapshots| && |yielded| >= used)
  }

  ghost predicate AllSeen(snapshots: seq<Messages>, c: Id, rows: seq<Row>) {
    forall i :: 0 <= i < |rows| ==> SeenIn(snapshots, c, rows[i])
  }

  /** Every message that was live throughout, with a number up to `top` if there is one. */
  ghost predicate AllCovered(snapshots: seq<Messages>, c: Id, rows: seq<Row>, top: Option<nat>) {
    forall id, n: nat :: (top.Some? ==> n <= top.value) && Throughout(snapshots, c, id, n) ==> Row(id, n) in rows
  }

  ghost predicate SeenIn(snapshots: seq<Messages>, c: Id, row: Row) {
    exists k :: 0 <= k < |snapshots| && LiveAs(snapshots[k], c, row.id, row.number)
  }

  predicate LiveAs(m: Messages, c: Id, id: Id, n: nat) {
    LiveMessage(m, id) && m[id].conversation == c && m[id].sequenceNo == n
  }

  ghost predicate Throughout(snapshots: seq<Messages>, c: Id, id: Id, n: nat) {
    forall k :: 0 <= k < |snapshots| ==> LiveAs(snapshots[k], c, id, n)
  }

  /** A walk in progress: everything at or before the cursor that stayed live was yielded. */
  ghost predicate Walking(snapshots: seq<Messages>, c: Id, yielded: seq<Row>, cursor: Option<nat>, used: nat) {
    used <= |snapshots| && |yielded| >= used && Increasing(yielded)
    && AllSeen(snapshots[..used], c, yielded)
    && (if yielded == [] then cursor == None else cursor == Some(yielded[|yielded| - 1].number))
    && (cursor.Some? ==> AllCovered(snapshots[..used], c, yielded, cursor))
  }

  /** `iter_messages`: page after page, the k-th read from `snapshots[k]`, until a page is
      not full. */
  method IterMessages(snapshots: seq<Messages>, c: Id, page: int) returns (yielded: seq<Row>, finished: bool, used: nat)
    requires forall k :: 0 <= k < |snapshots| ==> SequencesUnique(snapshots[k])
    ensures Walked(snapshots, c, yielded, finished, used)
  {
    hide Walking, Walked, IsPage, SequencesUnique;
    yielded, finished, used := [], false, 0;
    var cursor: Option<nat> := None;
    WalkBounds(snapshots, c, yielded, cursor, used);
    while used < |snapshots|
      invariant used <= |snapshots| && !finished && Walking(snapshots, c, yielded, cursor, used)
    {
      var rows := ListPage(snapshots[used], c, cursor, None, page);
      WalkOn(snapshots, c, yielded, cursor, used, rows, PageSize(page));
      yielded := yielded + rows;
      used := used + 1;
      var hasMore := |rows| == PageSize(page);
      if !hasMore || rows == [] {
        finished := true;
        return;
      }
      cursor := Some(rows[|rows| - 1].number);
    }
    WalkBounds(snapshots, c, yielded, cursor, used);
  }

  lemma WalkBounds(snapshots: seq<Messages>, c: Id, yielded: seq<Row>, cursor: Option<nat>, used: nat)
    ensures yielded == [] && cursor == None && used == 0 ==> Walking(snapshots, c, yielded, cursor, used)
    ensures Walking(snapshots, c, yielded, cursor, used) && used == |snapshots| ==> Walked(snapshots, c, yielded, false, used)
  {}

  /** One more page. */
  lemma WalkOn(snapshots: seq<Messages>, c: Id, yielded: seq<Row>, cursor: Option<nat>, used: nat, rows: seq<Row>, size: nat)
    requires used < |snapshots| && Walking(snapshots, c, yielded, cursor, used) && IsPage(snapshots[used], c, cursor, None, size, rows)
    ensures |rows| <= size
    ensures |rows| < size ==> Walked(snapshots, c, yielded + rows, true, used + 1)
    ensures |rows| == size > 0 ==> Walking(snapshots, c, yielded + rows, Some(rows[size - 1].number), used + 1)
  {
    hide Increasing, IsPage, AllSeen, AllCovered;
    RisesOn(snapshots[used], c, yielded, cursor, rows, size);
    SeenSoFar(snapshots, c, yielded, cursor, used, rows, size);
    if |rows| < size {
      AllCoveredSoFar(snapshots, c, yielded, cursor, used, rows, size, None);
    } else if size > 0 {
      AllCoveredSoFar(snapshots, c, yielded, cursor, used, rows, size, Some(rows[size - 1].number));
    }
  }

  lemma AllCoveredSoFar(snapshots: seq<Messages>, c: Id, yielded: seq<Row>, cursor: Option<nat>, used: nat, rows: seq<Row>, size: nat,
                        top: Option<nat>)
    requires used < |snapshots| && Walking(snapshots, c, yielded, cursor, used) && IsPage(snapshots[used], c, cursor, None, size, rows)
    requires |rows| < size || (rows != [] && top == Some(rows[|rows| - 1].number))
    ensures AllCovered(snapshots[..used + 1], c, yielded + rows, top)
  {
    hide Walking, IsPage, Throughout;
    forall id, n: nat | (top.Some? ==> n <= top.value) && Throughout(snapshots[..used + 1], c, id, n) ensures Row(id, n) in yielded + rows {
      CoveredSoFar(snapshots, c, yielded, cursor, used, rows, size, id, n);
    }
  }

  /** A message that stayed live was yielded before, or stands on this page if the page
      reaches as far. */
  lemma CoveredSoFar(snapshots: seq<Messages>, c: Id, yielded: seq<Row>, cursor: Option<nat>, used: nat, rows: seq<Row>, size: nat,
                     id: Id, n: nat)
    requires used < |snapshots| && Walking(snapshots, c, yielded, cursor, used) && IsPage(snapshots[used], c, cursor, None, size, rows)
    requires Throughout(snapshots[..used + 1], c, id, n)
    requires |rows| < size || (rows != [] && n <= rows[|rows| - 1].number)
    ensures Row(id, n) in yielded + rows
  {
    hide Increasing, SeenIn;
    var now := snapshots[..used + 1];
    assert forall k :: 0 <= k < used ==> now[k] == snapshots[..used][k];
    assert now[used] == snapshots[used] && LiveAs(now[used], c, id, n);
    if cursor.Some? && n <= cursor.value {
      assert Throughout(snapshots[..used], c, id, n);
    } else {
      assert Listable(snapshots[used], c, cursor, None, id);
    }
  }

  lemma RisesOn(m: Messages, c: Id, yielded: seq<Row>, cursor: Option<nat>, rows: seq<Row>, size: nat)
    requires Increasing(yielded) && IsPage(m, c, cursor, None, size, rows)
    requires if yielded == [] then cursor == None else cursor == Some(yielded[|yielded| - 1].number)
    ensures Increasing(yielded + rows) && |rows| <= size
  {}

  lemma SeenSoFar(snapshots: seq<Messages>, c: Id, yielded: seq<Row>, cursor: Option<nat>, used: nat, rows: seq<Row>, size: nat)
    requires used < |snapshots| && AllSeen(snapshots[..used], c, yielded) && IsPage(snapshots[used], c, cursor, None, size, rows)
    ensures AllSeen(snapshots[..used + 1], c, yielded + rows)
  {
    var now := snapshots[..used + 1];
    assert now[used] == snapshots[used] && forall k :: 0 <= k < used ==> now[k] == snapshots[..used][k];
    forall i | 0 <= i < |yielded + rows| ensures SeenIn(now, c, (yielded + rows)[i]) {
      if i < |yielded| {
        assert SeenIn(snapshots[..used], c, yielded[i]);
        var k :| 0 <= k < used && LiveAs(snapshots[..used][k], c, yielded[i].id, yielded[i].number);
        assert LiveAs(now[k], c, yielded[i].id, yielded[i].number);
      } else {
        assert LiveAs(now[used], c, rows[i - |yielded|].id, rows[i - |yielded|].number);
      }
    }
  }

  // -------------------------------------------------------------- what it means

  /** Nobody is yielded twice: in every walk, a message that keeps its number is one row. */
  lemma YieldedOnce(snapshots: seq<Messages>, c: Id, yielded: seq<Row>, finished: bool, used: nat, id: Id, n: nat)
    requires Walked(snapshots, c, yielded, finished, used) && finished && Throughout(snapshots[..used], c, id, n)
    ensures exists i :: 0 <= i < |yielded| && yielded[i].id == id
    ensures forall i, j :: 0 <= i < |yielded| && 0 <= j < |yielded| && yielded[i].id == id == yielded[j].id ==> i == j
  {
    assert Row(id, n) in yielded;
    forall i | 0 <= i < |yielded| && yielded[i].id == id ensures yielded[i].number == n {
      assert SeenIn(snapshots[..used], c, yielded[i]);
    }
  }

  function IdsIn(rows: seq<Row>): (ids: seq<Id>)
    ensures |ids| == |rows|
  {
    seq(|rows|, i requires 0 <= i < |rows| => rows[i].id)
  }

  /** On a table nobody changes a walk with enough requests ends, and yields the whole live
      transcript in order. */
  lemma FixedTable(m: Messages, snapshots: seq<Messages>, c: Id, yielded: seq<Row>, finished: bool, used: nat)
    requires Walked(snapshots, c, yielded, finished, used) && forall k :: 0 <= k < |snapshots| ==> snapshots[k] == m
    requires |snapshots| > |LiveMessagesOf(m, {c})|
    ensures finished && Transcript(m, c, IdsIn(yielded))
  {
    var ids := IdsIn(yielded);
    forall i | 0 <= i < |ids| ensures LiveAs(m, c, ids[i], yielded[i].number) { assert SeenIn(snapshots[..used], c, yielded[i]); }
    forall i, j | 0 <= i < j < |ids| ensures ids[i] != ids[j] { assert yielded[i].number < yielded[j].number; }
    assert IdSet(ids) <= LiveMessagesOf(m, {c});
    FewIds(ids, LiveMessagesOf(m, {c}));
    forall id | LiveMessage(m, id) && m[id].conversation == c ensures id in ids {
      assert Throughout(snapshots[..used], c, id, m[id].sequenceNo);
      var i :| 0 <= i < |yielded| && yielded[i] == Row(id, m[id].sequenceNo);
      assert ids[i] == id;
    }
  }

  lemma {:induction false} FewIds(ids: seq<Id>, some: set<Id>)
    requires forall i, j :: 0 <= i < j < |ids| ==> ids[i] != ids[j]
    requires forall i :: 0 <= i < |ids| ==> ids[i] in some
    ensures |ids| <= |some|
    decreases |ids|
  {
    if ids != [] { FewIds(ids[..|ids| - 1], some - {ids[|ids| - 1]}); }
  }

  // --------------------------------------------------------- numbers in a run

  /** A message keeps its conversation and its number while it exists. */
  ghost predicate SameNumbers(m: Messages, n: Messages) {
    forall x :: x in m && x in n ==> n[x].sequenceNo == m[x].sequenceNo && n[x].conversation == m[x].conversation
  }

  lemma ProjectStepNumbers(d: Database, actor: Actor, op: ProjectOp)
    ensures SameNumbers(d.messages, ProjectStep(d, actor, op).messages)
  {
    hide Place, Rekeyed, Subtree;
  }

  lemma ConversationStepNumbers(d: Database, actor: Actor, op: ConversationOp)
    requires ConversationPremise(d, op)
    ensures SameNumbers(d.messages, ConversationStep(d, actor, op).messages)
  {
    hide Place, RekeyedIn, Lists, ForkedMessages, ForkRow, ForkPlacement, CopyAllLinks;
    if op.ForkConversation? && Stored(d.messages, op.order) && |op.ids| == |op.order| + 1 && op.id in d.conversations {
      CopyGrafts(d.messages, op.order, op.ids, op.target, d.conversations[op.id].name);
    }
  }

  lemma MessageStepNumbers(d: Database, actor: Actor, op: MessageOp)
    requires MessagePremise(d, op)
    ensures SameNumbers(d.messages, MessageStep(d, actor, op).messages)
  {
    hide LinkAll, IndexAfter, GrownAfter, NextSequenceNo;
  }

  lemma FileStepMessages(d: Database, sha: Bytes -> Digest, actor: Actor, op: FileOp)
    ensures FileStep(d, sha, actor, op).messages == d.messages
  {
    hide CommitEffect, Swept, CreateUpload, PutChunk, Unlink, CommitVerdict, InitiateVerdict, PutChunkVerdict, MessageGate;
  }

  lemma PurgeNumbers(d: Database, cutoff: Stamp)
    ensures SameNumbers(d.messages, PurgeEffect(d, cutoff).messages)
  {}

  lemma StepNumbers(d: Database, sha: Bytes -> Digest, actor: Actor, op: Runs.Op)
    requires Premise(d, op)
    ensures SameNumbers(d.messages, Step(d, sha, actor, op).messages)
  {
    hide ProjectPremise, ConversationPremise, MessagePremise, FilePremise, ProjectStep, ConversationStep, MessageStep, FileStep, PurgeEffect;
    match op
    case OnProject(o) => ProjectStepNumbers(d, actor, o);
    case OnConversation(o) => ConversationStepNumbers(d, actor, o);
    case OnMessage(o) => MessageStepNumbers(d, actor, o);
    case OnFile(o) => FileStepMessages(d, sha, actor, o);
    case Purge(retention, dryRun, now) => PurgeNumbers(d, now - retention * DAY_MS);
  }

  /** Over a run a message keeps its conversation and its number while it exists. */
  lemma {:induction false} RunKeepsNumber(sha: Bytes -> Digest, states: seq<Database>, calls: seq<Call>, i: nat, j: nat, x: Id)
    requires Runs.Run(sha, states, calls) && i <= j < |states|
    requires forall k :: i <= k <= j ==> x in states[k].messages
    ensures states[j].messages[x].sequenceNo == states[i].messages[x].sequenceNo
            && states[j].messages[x].conversation == states[i].messages[x].conversation
    decreases j - i
  {
    hide Premise, Step;
    if i < j {
      RunKeepsNumber(sha, states, calls, i, j - 1, x);
      StepNumbers(states[j - 1], sha, calls[j - 1].actor, calls[j - 1].op);
    }
  }

  /** The k-th page of a walk is read from state `at[k]` of a run. */
  ghost predicate PagesOf(states: seq<Database>, at: seq<nat>, snapshots: seq<Messages>) {
    |at| == |snapshots| && (forall k, l :: 0 <= k <= l < |at| ==> at[k] <= at[l])
    && forall k :: 0 <= k < |at| ==> at[k] < |states| && snapshots[k] == states[at[k]].messages
  }

  /** A walk through a run, with anything between its pages, that ends has yielded every
      message that was live all the while exactly once. */
  lemma WalkOverRun(sha: Bytes -> Digest, states: seq<Database>, calls: seq<Call>, at: seq<nat>, snapshots: seq<Messages>, c: Id,
                    yielded: seq<Row>, finished: bool, used: nat, x: Id)
    requires Runs.Run(sha, states, calls) && PagesOf(states, at, snapshots)
    requires Walked(snapshots, c, yielded, finished, used) && finished && used > 0
    requires forall k :: at[0] <= k <= at[used - 1] ==> Listable(states[k].messages, c, None, None, x)
    ensures exists i :: 0 <= i < |yielded| && yielded[i].id == x
    ensures forall i, j :: 0 <= i < |yielded| && 0 <= j < |yielded| && yielded[i].id == x == yielded[j].id ==> i == j
  {
    hide Premise, Step;
    assert Listable(states[at[0]].messages, c, None, None, x);
    var n := states[at[0]].messages[x].sequenceNo;
    forall k | 0 <= k < used ensures LiveAs(snapshots[k], c, x, n) {
      assert forall i :: at[0] <= i <= at[k] ==> Listable(states[i].messages, c, None, None, x);
      RunKeepsNumber(sha, states, calls, at[0], at[k], x);
    }
    assert forall k :: 0 <= k < used ==> snapshots[..used][k] == snapshots[k];
    hide Walked;
    YieldedOnce(snapshots, c, yielded, finished, used, x, n);
  }
}
