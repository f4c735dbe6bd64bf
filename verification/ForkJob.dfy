/** Forking a conversation (`fork_conversation`, `_fork_position` and `_copy_transcript` in
  `tree_agent/server/services/tree.py`). */
module ForkJob {
  import opened Base
  import opened Ids
  import opened Levels
  import opened Naming
  import opened Tables
  import opened Files
  import opened Search
  import opened Schema
  import opened Indexing
  import ProjectJobs
  import opened ConversationJobs
  import opened MessageJobs

  // ---------------------------------------------------------------- position

  /** A fork of the same source, or of the same session. */
  predicate SameSource(c: Conversations, id: Id, source: Id, thread: Option<Id>) {
    LiveConversation(c, id)
    && (c[id].forkedFrom == Some(source) || (thread.Some? && c[id].forkedSession == thread))
  }

  function IndexOf(listing: seq<Entry>, id: Id): (i: nat)
    ensures i <= |listing| && (i < |listing| ==> listing[i].id == id) && forall j :: 0 <= j < i ==> listing[j].id != id
  {
    if listing == [] || listing[0].id == id then 0 else 1 + IndexOf(listing[1..], id)
  }

  /** The first position from `n` on that does not hold a fork of the same source. */
  function SkipForks(c: Conversations, listing: seq<Entry>, source: Id, thread: Option<Id>, n: nat): (position: nat)
    requires n <= |listing|
    ensures n <= position <= |listing|
    ensures forall j :: n <= j < position ==> SameSource(c, listing[j].id, source, thread)
    ensures position < |listing| ==> !SameSource(c, listing[position].id, source, thread)
    decreases |listing| - n
  {
    if n < |listing| && SameSource(c, listing[n].id, source, thread) then SkipForks(c, listing, source, thread, n + 1) else n
  }

  /** Just below the source, after the forks of the same source that already follow it. */
  function ForkSlot(c: Conversations, listing: seq<Entry>, source: Id, thread: Option<Id>): nat {
    var i := IndexOf(listing, source);
    if i == |listing| then |listing| else SkipForks(c, listing, source, thread, i + 1)
  }

  /** `_fork_position` */
  method ForkPosition(c: Conversations, listing: seq<Entry>, source: Id, thread: Option<Id>) returns (position: nat)
    ensures position == ForkSlot(c, listing, source, thread)
  {
    var i := IndexOf(listing, source);
    if i == |listing| {
      return |listing|;
    }
    position := i + 1;
    while position < |listing| && SameSource(c, listing[position].id, source, thread)
      invariant i < position <= |listing|
      invariant SkipForks(c, listing, source, thread, position) == SkipForks(c, listing, source, thread, i + 1)
    {
      position := position + 1;
    }
  }

  // -------------------------------------------------------------- transcript

  predicate Stored(m: Messages, order: seq<Id>) { forall i :: 0 <= i < |order| ==> order[i] in m }

  /** New ids: unused and different. */
  ghost predicate NewIds(m: Messages, ids: seq<Id>) {
    (forall i :: 0 <= i < |ids| ==> ids[i] !in m) && (forall i, j :: 0 <= i < j < |ids| ==> ids[i] != ids[j])
  }

  /** What a copy keeps: the role, the text and whether it is finished. */
  function CopyOf(row: Message, target: Id, position: nat): Message {
    Message(target, None, position, row.role, row.content, None, row.completed, None)
  }

  /** The first `n` rows copied. */
  function CopyRows(m: Messages, order: seq<Id>, ids: seq<Id>, target: Id, n: nat): (r: Messages)
    requires n <= |order| && n <= |ids| && Stored(m, order)
    ensures forall id :: id in r <==> id in m || id in ids[..n]
  {
    if n == 0 then m
    else
      assert ids[..n] == ids[..n - 1] + [ids[n - 1]];
      CopyRows(m, order, ids, target, n - 1)[ids[n - 1] := CopyOf(m[order[n - 1]], target, n)]
  }

  lemma {:induction false} OtherRows(m: Messages, order: seq<Id>, ids: seq<Id>, target: Id, n: nat, x: Id)
    requires n <= |order| && n <= |ids| && Stored(m, order)
    requires x in m && x !in ids[..n]
    ensures CopyRows(m, order, ids, target, n)[x] == m[x]
    decreases n
  {
    if n > 0 {
      assert ids[..n] == ids[..n - 1] + [ids[n - 1]];
      OtherRows(m, order, ids, target, n - 1, x);
    }
  }

  lemma {:induction false} CopiedRow(m: Messages, order: seq<Id>, ids: seq<Id>, target: Id, n: nat, i: nat)
    requires n <= |order| && n <= |ids| && NewIds(m, ids) && i < n && Stored(m, order)
    ensures ids[i] in ids[..n] && CopyRows(m, order, ids, target, n)[ids[i]] == CopyOf(m[order[i]], target, i + 1)
    decreases n
  {
    assert ids[..n][i] == ids[i];
    if i < n - 1 { CopiedRow(m, order, ids, target, n - 1, i); }
  }

  type Links = map<(Id, Id), nat>

  /** `INSERT INTO message_attachments ... SELECT` from one message to a new one. */
  function CopyLinks(links: Links, source: Id, target: Id): (r: Links)
    ensures forall x: Id, a: Id :: (x, a) in r <==> (x, a) in links || (x == target && (source, a) in links)
    ensures forall x: Id, a: Id :: (x, a) in r ==>
              r[(x, a)] == if x == target && (source, a) in links then links[(source, a)] else links[(x, a)]
  {
    links + map key | key in links && key.0 == source :: (target, key.1) := links[key]
  }

  function CopyAllLinks(links: Links, order: seq<Id>, ids: seq<Id>, n: nat): (r: Links)
    requires n <= |order| && n <= |ids|
  {
    if n == 0 then links else CopyLinks(CopyAllLinks(links, order, ids, n - 1), order[n - 1], ids[n - 1])
  }

  /** Two messages with the same attachments in the same order. */
  ghost predicate SameLinks(f: Links, x: Id, g: Links, y: Id) {
    forall a: Id :: ((x, a) in f <==> (y, a) in g) && ((x, a) in f ==> f[(x, a)] == g[(y, a)])
  }

  lemma {:induction false} OtherLinks(links: Links, order: seq<Id>, ids: seq<Id>, n: nat, x: Id)
    requires n <= |order| && n <= |ids| && x !in ids[..n]
    ensures SameLinks(CopyAllLinks(links, order, ids, n), x, links, x)
    decreases n
  {
    if n > 0 {
      assert ids[..n] == ids[..n - 1] + [ids[n - 1]];
      OtherLinks(links, order, ids, n - 1, x);
    }
  }

  lemma {:induction false} CopiedLinks(links: Links, order: seq<Id>, ids: seq<Id>, n: nat, i: nat)
    requires i < n <= |order| && n <= |ids| && order[i] !in ids && forall a: Id :: (ids[i], a) !in links
    requires forall j :: 0 <= j < |ids| && j != i ==> ids[j] != ids[i]
    ensures SameLinks(CopyAllLinks(links, order, ids, n), ids[i], links, order[i])
    decreases n
  {
    if i < n - 1 {
      CopiedLinks(links, order, ids, n - 1, i);
      OneLinkCopy(CopyAllLinks(links, order, ids, n - 1), order[n - 1], ids[n - 1], ids[i], links, order[i]);
    } else {
      LastLinks(links, order, ids, i);
    }
  }

  lemma OneLinkCopy(links: Links, source: Id, target: Id, x: Id, before: Links, y: Id)
    requires SameLinks(links, x, before, y) && x != target
    ensures SameLinks(CopyLinks(links, source, target), x, before, y)
  {}

  lemma LastLinks(links: Links, order: seq<Id>, ids: seq<Id>, i: nat)
    requires i < |order| && i < |ids| && order[i] !in ids[..i] && ids[i] !in ids[..i] && forall a: Id :: (ids[i], a) !in links
    ensures SameLinks(CopyAllLinks(links, order, ids, i + 1), ids[i], links, order[i])
  {
    OtherLinks(links, order, ids, i, order[i]);
    OtherLinks(links, order, ids, i, ids[i]);
  }

  lemma CopyOrigin(links: Links, source: Id, target: Id, x: Id, a: Id)
    requires (x, a) in CopyLinks(links, source, target)
    ensures (x, a) in links || (x == target && (source, a) in links)
  {}

  lemma {:induction false} CopiedLinksRefs(links: Links, order: seq<Id>, ids: seq<Id>, n: nat, x: Id, a: Id) returns (y: Id)
    requires n <= |order| && n <= |ids| && (x, a) in CopyAllLinks(links, order, ids, n)
    ensures (y, a) in links && ((x, a) in links || x in ids[..n])
    decreases n
  {
    y := x;
    if n > 0 {
      assert ids[..n] == ids[..n - 1] + [ids[n - 1]];
      CopyOrigin(CopyAllLinks(links, order, ids, n - 1), order[n - 1], ids[n - 1], x, a);
      hide CopyLinks;
      var z := if (x, a) in CopyAllLinks(links, order, ids, n - 1) then x else order[n - 1];
      y := CopiedLinksRefs(links, order, ids, n - 1, z, a);
    }
  }

  lemma OneCopyDiffers(links: Links, source: Id, target: Id)
    requires OrdersDiffer(links) && forall a: Id :: (target, a) !in links
    ensures OrdersDiffer(CopyLinks(links, source, target))
  {
    var r := CopyLinks(links, source, target);
    forall j, k | j in r && k in r && j.0 == k.0 && r[j] == r[k] ensures j == k {
      var x, y := if j in links then j else (source, j.1), if k in links then k else (source, k.1);
      assert j == (j.0, j.1) && k == (k.0, k.1);
      assert x in links && y in links && links[x] == r[j] && links[y] == r[k] && x.0 == y.0;
    }
  }

  /** The copies' attachments get different orders, too: no insert of a fork is refused for
      one that is taken. */
  lemma {:induction false} CopiesDiffer(links: Links, order: seq<Id>, ids: seq<Id>, n: nat)
    requires n <= |order| && n <= |ids| && OrdersDiffer(links)
    requires forall i: nat, a: Id :: i < |ids| ==> (ids[i], a) !in links
    requires forall i, j :: 0 <= i < j < |ids| ==> ids[i] != ids[j]
    ensures OrdersDiffer(CopyAllLinks(links, order, ids, n))
    decreases n
  {
    hide OrdersDiffer, CopyLinks;
    if n > 0 {
      CopiesDiffer(links, order, ids, n - 1);
      assert ids[n - 1] !in ids[..n - 1];
      NoLinksYet(links, order, ids, n - 1, ids[n - 1]);
      OneCopyDiffers(CopyAllLinks(links, order, ids, n - 1), order[n - 1], ids[n - 1]);
    }
  }

  lemma NoLinksYet(links: Links, order: seq<Id>, ids: seq<Id>, n: nat, x: Id)
    requires n <= |order| && n <= |ids| && x !in ids[..n] && forall a: Id :: (x, a) !in links
    ensures forall a: Id :: (x, a) !in CopyAllLinks(links, order, ids, n)
  {
    OtherLinks(links, order, ids, n, x);
  }

  // ------------------------------------------------------------------ effect

  function ForkNote(name: string): string {
    "\U{4EE5}\U{4E0A}\U{5167}\U{5BB9}\U{5206}\U{5C94}\U{81EA}\U{300C}" + name
    + "\U{300D}\U{3002}\U{5F9E}\U{9019}\U{88E1}\U{958B}\U{59CB}\U{FF0C}\U{5169}\U{908A}\U{5404}\U{8D70}\U{5404}\U{7684}\U{3002}"
  }

  /** The copied rows and the closing note. */
  function ForkedMessages(m: Messages, order: seq<Id>, ids: seq<Id>, target: Id, name: string): Messages
    requires |ids| == |order| + 1 && Stored(m, order)
  {
    var n := |order|;
    CopyRows(m, order, ids, target, n)[ids[n] := Message(target, None, n + 1, MetaRole, ForkNote(name), None, false, None)]
  }

  function ForkRow(c: Conversations, source: Id, key: Key): Conversation
    requires source in c
  {
    var row := c[source];
    var taken := TakenNames(c, row.project);
    Conversation(row.project, Forked(StripFork(row.name), FreeFork(true, taken, StripFork(row.name))), key,
                 None, None, Some(source), SourceSession(row), 1, None, None)
  }

  /** What the runner called the session a fork starts from: `codex_thread_id or
      claude_session_id`. */
  function SourceSession(row: Conversation): Option<Id> { if row.thread.Some? then row.thread else row.session }

  /** A generated fork name passes the CHECK exactly when suffix and base, with the space
      between them, have at most 200 characters. So a fork can fail for its name alone. */
  lemma ForkFitsExactly(base: string, n: nat)
    requires base == [] || base[0] != ' '
    ensures NameFits(Forked(base, n))
            <==> |base| + |ForkSuffix(n + 1)| + (if base == [] then 0 else 1) <= NAME_MAX
  {
    var suffix := ForkSuffix(n + 1);
    assert suffix[0] == '(' && suffix[|suffix| - 1] == ')';
    var name := Forked(base, n);
    assert name == base + [' '] + suffix && name[|name| - 1] == ')';
    if base == [] {
      assert name[1..] == suffix && TrimSpaces(suffix) == suffix;
    } else {
      assert TrimSpaces(name) == name;
    }
  }

  function ForkVerdict(d: Database, actor: Actor, source: Id): (r: Outcome)
    ensures r == Done ==> LiveConversation(d.conversations, source)
  {
    var gate := ConversationGate(d, actor, source);
    if gate.Failed? then gate
    else if !NameFits(ForkRow(d.conversations, source, []).name) then Failed(Integrity)
    else Done
  }

  function LongName(): string { seq(196, _ => 'a') }

  const ROOT_USER: Actor := Actor(1, Admin)

  /** A project, and in it a conversation with a name of 196 characters, both just created
      by an administrator. */
  function LongNamed(): Database {
    CreateConversationEffect(OneProject(), 0, LongName(), None, 0, [])
  }

  function OneProject(): Database { ProjectJobs.CreateProjectEffect(EMPTY, ROOT_USER, None, "p", None, "", 0, []) }

  lemma OneProjectKept(sha: Bytes -> Digest)
    ensures Inv(OneProject(), sha) && LiveProject(OneProject().projects, 0) && OneProject().conversations == map[]
    ensures ProjectJobs.Clean("p") == Some("p") && ProjectJobs.CreateProjectVerdict(EMPTY, ROOT_USER, None, "p") == Done
  {
    hide Inv;
    EmptyInv(sha);
    assert ProjectLevel(EMPTY.projects, None) == map[];
    ProjectJobs.CreateProjectKeeps(EMPTY, sha, ROOT_USER, None, "p", None, "", 0, []);
  }

  /** Two jobs that succeed lead from the empty database to one in which no invariant is
      broken and the fork of a conversation with a legal name is refused. */
  lemma LongNameNoFork(sha: Bytes -> Digest)
    ensures ProjectJobs.CreateProjectVerdict(EMPTY, ROOT_USER, None, "p") == Done
            && CreateConversationVerdict(OneProject(), ROOT_USER, 0, LongName()) == Done
    ensures Inv(LongNamed(), sha) && ConversationGate(LongNamed(), ROOT_USER, 0) == Done
            && LongNamed().conversations[0].name == LongName()
            && ForkVerdict(LongNamed(), ROOT_USER, 0) == Failed(Integrity)
  {
    hide Inv, ProjectJobs.CreateProjectVerdict, Segment, WellFormed;
    OneProjectKept(sha);
    assert ConversationLevel(map[], 0) == map[];
    CreateConversationKeeps(OneProject(), sha, ROOT_USER, 0, LongName(), None, 0, []);
    ForkFitsExactly(LongName(), 0);
  }

  function ForkPlacement(c: Conversations, source: Id, listing: seq<Entry>): Placement
    requires source in c
  {
    Place(listing, Some(ForkSlot(c, listing, source, c[source].thread)))
  }

  function ForkEffect(d: Database, source: Id, listing: seq<Entry>, order: seq<Id>, ids: seq<Id>, target: Id): Database
    requires source in d.conversations && |ids| == |order| + 1 && Stored(d.messages, order)
  {
    var placement := ForkPlacement(d.conversations, source, listing);
    var row := ForkRow(d.conversations, source, placement.key);
    Grafting(d.(conversations := RekeyedIn(d.conversations, placement.updates)), target, row,
             ForkedMessages(d.messages, order, ids, target, d.conversations[source].name),
             d.files.(links := CopyAllLinks(d.files.links, order, ids, |order|)))
  }

  /** A new conversation, its transcript and their index entries. */
  function Grafting(d: Database, target: Id, row: Conversation, n: Messages, f: Files): Database {
    Reindexed(d.(conversations := d.conversations[target := row], messages := n, files := f), {target})
  }

  // -------------------------------------------------------------- invariants

  /** New rows for one conversation beside untouched old ones. */
  ghost predicate Grafted(m: Messages, n: Messages, target: Id) {
    (forall x :: x in m ==> x in n && n[x] == m[x])
    && (forall x :: x in n && x !in m ==> n[x].conversation == target && n[x].parentMessage == None && n[x].event == None
                                          && n[x].deletedAt == None)
    && (forall x, y :: x in n && x !in m && y in n && y !in m && x != y ==> n[x].sequenceNo != n[y].sequenceNo)
  }

  lemma ForkedRow(m: Messages, order: seq<Id>, ids: seq<Id>, target: Id, name: string, i: nat)
    requires |ids| == |order| + 1 && NewIds(m, ids) && Stored(m, order) && i < |ids|
    ensures var r := ForkedMessages(m, order, ids, target, name);
            ids[i] in r && r[ids[i]].sequenceNo == i + 1 && r[ids[i]].conversation == target && r[ids[i]].parentMessage == None
            && r[ids[i]].event == None && r[ids[i]].deletedAt == None
  {
    if i < |order| { CopiedRow(m, order, ids, target, |order|, i); }
  }

  lemma ForkedKeys(m: Messages, order: seq<Id>, ids: seq<Id>, target: Id, name: string, x: Id)
    requires |ids| == |order| + 1 && NewIds(m, ids) && Stored(m, order)
    ensures var r := ForkedMessages(m, order, ids, target, name);
            (x in r <==> x in m || x in ids) && (x in m ==> r[x] == m[x])
  {
    var n := |order|;
    assert ids == ids[..n] + [ids[n]];
    if x in m { OtherRows(m, order, ids, target, n, x); }
  }

  lemma CopyGrafts(m: Messages, order: seq<Id>, ids: seq<Id>, target: Id, name: string)
    requires |ids| == |order| + 1 && NewIds(m, ids) && Stored(m, order)
    ensures Grafted(m, ForkedMessages(m, order, ids, target, name), target)
    ensures forall x :: x in ForkedMessages(m, order, ids, target, name) <==> x in m || x in ids
  {
    hide NewIds, ForkedMessages;
    var r := ForkedMessages(m, order, ids, target, name);
    forall x ensures (x in r <==> x in m || x in ids) && (x in m ==> r[x] == m[x]) {
      ForkedKeys(m, order, ids, target, name, x);
    }
    forall i | 0 <= i < |ids|
      ensures r[ids[i]].sequenceNo == i + 1 && r[ids[i]].conversation == target && r[ids[i]].parentMessage == None
              && r[ids[i]].event == None && r[ids[i]].deletedAt == None
    {
      ForkedRow(m, order, ids, target, name, i);
    }
  }

  lemma GraftRules(c: Conversations, m: Messages, n: Messages, target: Id, row: Conversation)
    requires MessageRules(c, m) && target !in c && row.deletedAt == None && Grafted(m, n, target)
    ensures MessageRules(c[target := row], n)
  {
    forall a, b | a in n && b in n && a != b && n[a].conversation == n[b].conversation
      ensures n[a].sequenceNo != n[b].sequenceNo && !(n[a].event.Some? && n[a].event == n[b].event)
    {
      if a in m && b in m { assert m[a].conversation == m[b].conversation; }
    }
  }

  lemma GraftMirrored(c: Conversations, m: Messages, n: Messages, mi: MessageIndex, grown: set<Id>, target: Id, row: Conversation)
    requires MessageRules(c, m) && MessagesMirrored(c, m, mi, grown) && target !in c && row.deletedAt == None && Grafted(m, n, target)
    ensures var e, ids := c[target := row], LiveMessagesOf(n, {target});
            MessagesMirrored(e, n, ReindexedMessages(e, n, mi, ids), grown - ids)
  {
    hide Segment, Blank;
    var e := c[target := row];
    GraftRules(c, m, n, target, row);
    forall id ensures Mirrors(e, n, mi, grown, id) || (id in n && n[id].conversation in {target}) {
      assert Mirrors(c, m, mi, grown, id);
    }
    forall id | id in n && n[id].conversation in {target} && id in mi ensures LiveMessage(n, id) {
      assert Mirrors(c, m, mi, grown, id);
    }
    ReindexMirrors(e, n, mi, grown, {target});
  }

  lemma ForkFiles(m: Messages, n: Messages, f: Files, sha: Bytes -> Digest, order: seq<Id>, ids: seq<Id>)
    requires FileRules(m, f, sha) && |ids| == |order| + 1 && NewIds(m, ids) && forall x :: x in n <==> x in m || x in ids
    ensures FileRules(n, f.(links := CopyAllLinks(f.links, order, ids, |order|)), sha)
  {
    var links := CopyAllLinks(f.links, order, ids, |order|);
    forall x: Id, a: Id | (x, a) in links ensures x in n && a in f.attachments {
      var y := CopiedLinksRefs(f.links, order, ids, |order|, x, a);
    }
    CopiesDiffer(f.links, order, ids, |order|);
    NewLinks(f, sha, links);
  }

  lemma NewLinks(f: Files, sha: Bytes -> Digest, links: Links)
    requires FilesOk(f, sha) && forall x: Id, a: Id :: (x, a) in links ==> a in f.attachments
    ensures FilesOk(f.(links := links), sha)
  {
    PublishedKept(f, f.(links := links), sha);
  }


  lemma ForkConversationRow(d: Database, sha: Bytes -> Digest, source: Id, listing: seq<Entry>, target: Id)
    requires Inv(d, sha) && LiveConversation(d.conversations, source) && target !in d.conversations
    requires Lists(ConversationLevel(d.conversations, d.conversations[source].project), listing)
    requires NameFits(ForkRow(d.conversations, source, []).name)
    ensures var placement := ForkPlacement(d.conversations, source, listing);
            Inv(AddConversation(d.(conversations := RekeyedIn(d.conversations, placement.updates)), target,
                                ForkRow(d.conversations, source, placement.key)), sha)
    ensures target !in RekeyedIn(d.conversations, ForkPlacement(d.conversations, source, listing).updates)
    ensures Inv(d.(conversations := RekeyedIn(d.conversations, ForkPlacement(d.conversations, source, listing).updates)), sha)
  {
    var placement := ForkPlacement(d.conversations, source, listing);
    var c := RekeyedIn(d.conversations, placement.updates);
    var row := ForkRow(d.conversations, source, placement.key);
    ConversationListingWellFormed(d.projects, d.conversations, row.project, listing, target,
                                  Some(ForkSlot(d.conversations, listing, source, d.conversations[source].thread)));
    RekeyConversationsKeeps(d, sha, placement.updates);
    RekeyedInOnlyKeys(d.conversations, placement.updates);
    AddConversationKeeps(d.(conversations := c), sha, target, row);
  }

  lemma GraftKeeps(d: Database, sha: Bytes -> Digest, target: Id, row: Conversation, n: Messages, f: Files)
    requires Inv(d, sha) && Inv(AddConversation(d, target, row), sha) && target !in d.conversations && row.deletedAt == None
    requires Grafted(d.messages, n, target) && FileRules(n, f, sha)
    ensures Inv(Grafting(d, target, row, n, f), sha)
  {
    var c, ids := d.conversations[target := row], LiveMessagesOf(n, {target});
    GraftRules(d.conversations, d.messages, n, target, row);
    GraftMirrored(d.conversations, d.messages, n, d.messageIndex, d.grown, target, row);
    OneConversation(c, d.conversationIndex, target);
  }

  /** A fork keeps every rule: in particular its name is free, its numbers are its own and
      everything in it is searchable under the right project. */
  lemma ForkKeeps(d: Database, sha: Bytes -> Digest, actor: Actor, source: Id, listing: seq<Entry>, order: seq<Id>, ids: seq<Id>, target: Id)
    requires Inv(d, sha) && ForkVerdict(d, actor, source) == Done && target !in d.conversations
    requires Lists(ConversationLevel(d.conversations, d.conversations[source].project), listing)
    requires Stored(d.messages, order) && NewIds(d.messages, ids) && |ids| == |order| + 1
    ensures Inv(ForkEffect(d, source, listing, order, ids, target), sha)
  {
    hide Grafted, NewIds, Stored, Grafting, FileRules, CopyAllLinks, ForkedMessages;
    var placement := ForkPlacement(d.conversations, source, listing);
    var c := RekeyedIn(d.conversations, placement.updates);
    var row := ForkRow(d.conversations, source, placement.key);
    ForkConversationRow(d, sha, source, listing, target);
    var n := ForkedMessages(d.messages, order, ids, target, d.conversations[source].name);
    CopyGrafts(d.messages, order, ids, target, d.conversations[source].name);
    ForkFiles(d.messages, n, d.files, sha, order, ids);
    GraftKeeps(d.(conversations := c), sha, target, row, n, d.files.(links := CopyAllLinks(d.files.links, order, ids, |order|)));
  }

  // ------------------------------------------------------------------ result

  /** What a fork is: the live transcript of the source in the same order under numbers
      1 to n, each copy with its original's role and text, then one note; every other
      message as before. */
  lemma ForkCopies(m: Messages, source: Id, order: seq<Id>, ids: seq<Id>, target: Id, name: string)
    requires Transcript(m, source, order) && NewIds(m, ids) && |ids| == |order| + 1 && Stored(m, order)
    requires forall x :: x in m ==> m[x].conversation != target
    ensures var n := ForkedMessages(m, order, ids, target, name);
            Transcript(n, target, ids) && (forall x :: x in m ==> x in n && n[x] == m[x])
            && (forall i :: 0 <= i < |order| ==>
                  n[ids[i]].sequenceNo == i + 1 && n[ids[i]].role == m[order[i]].role && n[ids[i]].content == m[order[i]].content)
            && n[ids[|order|]].role == MetaRole
  {
    var n := ForkedMessages(m, order, ids, target, name);
    CopyGrafts(m, order, ids, target, name);
    forall i | 0 <= i < |order| ensures n[ids[i]] == CopyOf(m[order[i]], target, i + 1) {
      CopiedRow(m, order, ids, target, |order|, i);
    }
  }

  /** Each copy shares its original's attachments, in the same display order. */
  lemma ForkShares(m: Messages, links: Links, source: Id, order: seq<Id>, ids: seq<Id>)
    requires Transcript(m, source, order) && NewIds(m, ids) && |ids| == |order| + 1
    requires forall x: Id, a: Id :: (x, a) in links ==> x in m
    ensures var r := CopyAllLinks(links, order, ids, |order|);
            (forall i :: 0 <= i < |order| ==> SameLinks(r, ids[i], links, order[i]))
            && (forall x :: x in m ==> SameLinks(r, x, links, x))
  {
    var r := CopyAllLinks(links, order, ids, |order|);
    forall i | 0 <= i < |order| ensures SameLinks(r, ids[i], links, order[i]) {
      CopiedLinks(links, order, ids, |order|, i);
    }
    forall x | x in m ensures SameLinks(r, x, links, x) {
      OtherLinks(links, order, ids, |order|, x);
    }
  }

  // --------------------------------------------------------------------- job

  lemma CopiedNumbers(m: Messages, order: seq<Id>, ids: seq<Id>, target: Id, n: nat)
    requires n <= |order| && n <= |ids| && NewIds(m, ids) && Stored(m, order)
    requires forall x :: x in m ==> m[x].conversation != target
    ensures NextSequenceNo(CopyRows(m, order, ids, target, n), target) == n + 1
  {
    var r := CopyRows(m, order, ids, target, n);
    forall x | x in r && r[x].conversation == target ensures 1 <= r[x].sequenceNo <= n {
      if x in ids[..n] {
        var i :| 0 <= i < n && ids[..n][i] == x;
        CopiedRow(m, order, ids, target, n, i);
      } else {
        OtherRows(m, order, ids, target, n, x);
      }
    }
    if n > 0 {
      CopiedRow(m, order, ids, target, n, n - 1);
      assert r[ids[n - 1]].sequenceNo in Numbers(r, target);
    }
  }

  /** `_copy_transcript` */
  method CopyTranscript(db: Handle, order: seq<Id>, ids: seq<Id>, target: Id)
    requires |order| < |ids| && NewIds(db.tables.messages, ids)
    requires Stored(db.tables.messages, order)
    modifies db
    ensures db.tables == old(db.tables).(
              messages := CopyRows(old(db.tables.messages), order, ids, target, |order|),
              files := old(db.tables.files).(links := CopyAllLinks(old(db.tables.files.links), order, ids, |order|)))
  {
    ghost var d := db.tables;
    for i := 0 to |order|
      invariant db.tables == d.(messages := db.tables.messages, files := d.files.(links := db.tables.files.links))
      invariant db.tables.messages == CopyRows(d.messages, order, ids, target, i)
      invariant db.tables.files.links == CopyAllLinks(d.files.links, order, ids, i)
    {
      assert order[i] !in ids[..i];
      OtherRows(d.messages, order, ids, target, i, order[i]);
      var row := db.tables.messages[order[i]];
      db.tables := db.tables.(messages := db.tables.messages[ids[i] := CopyOf(row, target, i + 1)]);
      db.tables := db.tables.(files := db.tables.files.(links := CopyLinks(db.tables.files.links, order[i], ids[i])));
    }
  }

  /** The row, its transcript, the closing note and the index entries of a fork. */
  method InsertFork(db: Handle, target: Id, fork: Conversation, name: string, order: seq<Id>, ids: seq<Id>)
    requires target !in db.tables.conversations && MessagesLinked(db.tables.conversations, db.tables.messages)
    requires Stored(db.tables.messages, order) && NewIds(db.tables.messages, ids) && |ids| == |order| + 1
    modifies db
    ensures var d := old(db.tables);
            db.tables == Grafting(d, target, fork, ForkedMessages(d.messages, order, ids, target, name),
                                  d.files.(links := CopyAllLinks(d.files.links, order, ids, |order|)))
  {
    hide CopyRows, CopyAllLinks, NextSequenceNo, Segment, Blank;
    ghost var d := db.tables;
    db.tables := db.tables.(conversations := db.tables.conversations[target := fork]);
    CopyTranscript(db, order, ids, target);
    CopiedNumbers(d.messages, order, ids, target, |order|);
    var next := FindNextSequenceNo(db.tables.messages, target);
    var note := Message(target, None, next, MetaRole, ForkNote(name), None, false, None);
    db.tables := db.tables.(messages := db.tables.messages[ids[|order|] := note]);
    ReindexConversation(db, target);
  }

  /** `fork_conversation`; `order` is what the ordered transcript query returned. */
  method ForkConversation(db: Handle, actor: Actor, source: Id, listing: seq<Entry>, order: seq<Id>, ids: seq<Id>, target: Id)
    returns (r: Outcome)
    requires target !in db.tables.conversations && MessagesLinked(db.tables.conversations, db.tables.messages)
    requires Stored(db.tables.messages, order) && NewIds(db.tables.messages, ids) && |ids| == |order| + 1
    modifies db
    ensures r == ForkVerdict(old(db.tables), actor, source)
    ensures db.tables == if r == Done then ForkEffect(old(db.tables), source, listing, order, ids, target) else old(db.tables)
  {
    r := CheckConversation(db, actor, source);
    if r.Failed? {
      return;
    }
    var row := db.tables.conversations[source];
    var name := ForkName(true, TakenNames(db.tables.conversations, row.project), row.name);
    var position := ForkPosition(db.tables.conversations, listing, source, row.thread);
    var placement := Place(listing, Some(position));
    RekeyedInOnlyKeys(db.tables.conversations, placement.updates);
    var begin := db.tables;
    ApplyConversationUpdates(db, placement.updates);
    var fork := Conversation(row.project, name, placement.key, None, None, Some(source), SourceSession(row), 1, None, None);
    if !NameFits(fork.name) {
      db.tables := begin; // ROLLBACK
      return Failed(Integrity);
    }
    InsertFork(db, target, fork, row.name, order, ids);
  }
}
