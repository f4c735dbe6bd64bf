/** The transcript jobs of `tree_agent/server/services/messages.py`, with the statements of
  `tree_agent/server/repositories/messages.py` they run. */
module MessageJobs {
  import opened Base
  import opened Tables
  import opened Access
  import opened Files
  import opened Search
  import opened Schema
  import opened Indexing
  import opened ProjectJobs
  import opened ConversationJobs

  // ------------------------------------------------------------------ rows

  function Numbers(m: Messages, conversation: Id): set<nat> {
    set id | id in m && m[id].conversation == conversation :: m[id].sequenceNo
  }

  /** `COALESCE(MAX(...), 0)` */
  ghost function Highest(numbers: set<nat>): (top: nat)
    ensures forall n :: n in numbers ==> n <= top
    ensures top in numbers || (numbers == {} && top == 0)
  {
    if numbers == {} then 0
    else
      var n :| n in numbers;
      assert numbers == (numbers - {n}) + {n};
      var rest := Highest(numbers - {n});
      if rest > n then rest else n
  }

  ghost function NextSequenceNo(m: Messages, conversation: Id): nat { Highest(Numbers(m, conversation)) + 1 }

  /** `next_sequence_no`: deleted messages keep their slots. */
  method FindNextSequenceNo(m: Messages, conversation: Id) returns (next: nat)
    ensures next == NextSequenceNo(m, conversation)
  {
    var order := Listing(set id | id in m && m[id].conversation == conversation);
    var top := 0;
    for i := 0 to |order|
      invariant forall j :: 0 <= j < i ==> order[j] in IdSet(order) && m[order[j]].sequenceNo <= top
      invariant top == 0 || top in Numbers(m, conversation)
    {
      assert order[i] in IdSet(order);
      if m[order[i]].sequenceNo > top {
        top := m[order[i]].sequenceNo;
      }
    }
    forall n | n in Numbers(m, conversation) ensures n <= top {
      var id :| id in m && m[id].conversation == conversation && m[id].sequenceNo == n;
      assert id in IdSet(order);
    }
    next := top + 1;
  }

  /** No other message of the conversation has this row's number or external event. */
  ghost predicate Unused(m: Messages, id: Id, row: Message) {
    forall x :: x in m && x != id && m[x].conversation == row.conversation ==>
      m[x].sequenceNo != row.sequenceNo && !(row.event.Some? && m[x].event == row.event)
  }

  lemma PutMessageRules(c: Conversations, m: Messages, id: Id, row: Message)
    requires MessageRules(c, m) && LiveConversation(c, row.conversation) && Unused(m, id, row)
    requires row.parentMessage.Some? ==> row.parentMessage.value in m
    ensures MessageRules(c, m[id := row])
  {}

  /** Only one message's row, index entry and history changed. */
  lemma PutMirrored(c: Conversations, m: Messages, mi: MessageIndex, grown: set<Id>, id: Id, row: Message,
                    mi': MessageIndex, grown': set<Id>)
    requires MessagesMirrored(c, m, mi, grown) && Mirrors(c, m[id := row], mi', grown', id)
    requires mi' - {id} == mi - {id} && grown' - {id} == grown - {id}
    ensures MessagesMirrored(c, m[id := row], mi', grown')
  {
    hide Segment, Blank;
    var n := m[id := row];
    forall x ensures Mirrors(c, n, mi', grown', x) {
      assert Mirrors(c, m, mi, grown, x);
      if x != id {
        assert x in mi' <==> x in mi' - {id};
        assert x in mi <==> x in mi - {id};
        assert x in grown' <==> x in grown' - {id};
        assert x in grown <==> x in grown - {id};
        if x in mi { assert mi'[x] == (mi' - {id})[x] == (mi - {id})[x] == mi[x]; }
      }
    }
  }

  /** The index after a row of an indexed role was written; tool output is not told. */
  function IndexAfter(c: Conversations, mi: MessageIndex, id: Id, row: Message): MessageIndex
    requires row.conversation in c
  {
    if Indexed(row.role) then WithMessage(mi, id, row.conversation, c[row.conversation].project, row.content) else mi
  }

  function GrownAfter(grown: set<Id>, id: Id, row: Message): set<Id> { if Indexed(row.role) then grown - {id} else grown }

  /** A row written together with its index entry and its links. */
  function Write(d: Database, id: Id, row: Message, f: Files): Database
    requires row.conversation in d.conversations
  {
    d.(messages := d.messages[id := row], messageIndex := IndexAfter(d.conversations, d.messageIndex, id, row),
       grown := GrownAfter(d.grown, id, row), files := f)
  }

  lemma WriteMirrored(c: Conversations, m: Messages, mi: MessageIndex, grown: set<Id>, id: Id, row: Message)
    requires MessagesMirrored(c, m, mi, grown) && LiveConversation(c, row.conversation) && row.deletedAt == None
    requires id in m ==> m[id].conversation == row.conversation && m[id].deletedAt == None
    ensures MessagesMirrored(c, m[id := row], IndexAfter(c, mi, id, row), GrownAfter(grown, id, row))
  {
    hide Segment, Blank;
    assert Mirrors(c, m, mi, grown, id);
    PutMirrored(c, m, mi, grown, id, row, IndexAfter(c, mi, id, row), GrownAfter(grown, id, row));
  }

  lemma WriteKeeps(d: Database, sha: Bytes -> Digest, id: Id, row: Message, f: Files)
    requires Inv(d, sha) && LiveConversation(d.conversations, row.conversation) && row.deletedAt == None
    requires id in d.messages ==> d.messages[id].conversation == row.conversation && d.messages[id].deletedAt == None
    requires Unused(d.messages, id, row) && (row.parentMessage.Some? ==> row.parentMessage.value in d.messages)
    requires FileRules(d.messages[id := row], f, sha)
    ensures Inv(Write(d, id, row, f), sha)
  {
    hide Segment, Blank;
    PutMessageRules(d.conversations, d.messages, id, row);
    WriteMirrored(d.conversations, d.messages, d.messageIndex, d.grown, id, row);
  }

  /** The next row of a conversation's transcript. */
  ghost function NewMessage(d: Database, conversation: Id, role: Role, content: string, event: Option<Id>, completed: bool): Message {
    Message(conversation, None, NextSequenceNo(d.messages, conversation), role, content, event, completed, None)
  }

  lemma NextIsUnused(m: Messages, id: Id, row: Message)
    requires row.sequenceNo == NextSequenceNo(m, row.conversation)
    requires row.event.Some? ==> !Repeated(m, row.conversation, row.event)
    ensures Unused(m, id, row)
  {
    forall x | x in m && m[x].conversation == row.conversation ensures m[x].sequenceNo < row.sequenceNo {
      assert m[x].sequenceNo in Numbers(m, row.conversation);
    }
  }

  /** `ORDER BY sequence_no` over a conversation's live messages. */
  ghost predicate Transcript(m: Messages, conversation: Id, order: seq<Id>) {
    (forall id :: id in order <==> LiveMessage(m, id) && m[id].conversation == conversation)
    && (forall i, j :: 0 <= i < j < |order| ==> order[i] != order[j])
    && (forall i, j :: 0 <= i < j < |order| ==> order[i] in m && order[j] in m && m[order[i]].sequenceNo < m[order[j]].sequenceNo)
  }

  // ---------------------------------------------------------------- append

  /** `by_external_event` finds a row, deleted ones included. */
  predicate Repeated(m: Messages, conversation: Id, event: Option<Id>) {
    event.Some? && exists id :: id in m && m[id].conversation == conversation && m[id].event == event
  }

  /** The attachment hangs on a live message the caller can read. */
  predicate Readable(d: Database, actor: Actor, a: Id) {
    a in d.files.attachments
    && exists key :: key in d.files.links && key.1 == a && Opens(d, actor, key.0)
  }

  predicate Opens(d: Database, actor: Actor, message: Id) {
    LiveMessage(d.messages, message) && LiveConversation(d.conversations, d.messages[message].conversation)
    && RequireRead(d.projects, d.grants, actor, d.conversations[d.messages[message].conversation].project) == Done
  }

  predicate AllReadable(d: Database, actor: Actor, attachments: seq<Id>) {
    forall a :: a in attachments ==> Readable(d, actor, a)
  }

  function AppendVerdict(d: Database, actor: Actor, conversation: Id, event: Option<Id>, attachments: seq<Id>): (r: Outcome)
    ensures r == Done ==> LiveConversation(d.conversations, conversation)
    ensures r == Done && !Repeated(d.messages, conversation, event) ==> AllReadable(d, actor, attachments)
  {
    var gate := ConversationGate(d, actor, conversation);
    if gate.Failed? then gate
    else if Repeated(d.messages, conversation, event) then Done
    else if !AllReadable(d, actor, attachments) then Failed(NotFound)
    else Done
  }

  function LinkAll(f: Files, message: Id, attachments: seq<Id>): (g: Files)
    ensures g == f.(links := g.links)
    ensures forall x: Id, a: Id :: (x, a) in g.links <==> (x, a) in f.links || (x == message && a in attachments)
    decreases |attachments|
  {
    if attachments == [] then f
    else
      var n := |attachments| - 1;
      assert attachments == attachments[..n] + [attachments[n]];
      Link(LinkAll(f, message, attachments[..n]), message, attachments[n], n)
  }

  lemma {:induction false} LinkAllKeeps(f: Files, sha: Bytes -> Digest, message: Id, attachments: seq<Id>)
    requires FilesOk(f, sha) && forall a :: a in attachments ==> a in f.attachments
    ensures FilesOk(LinkAll(f, message, attachments), sha)
    decreases |attachments|
  {
    if attachments != [] {
      var n := |attachments| - 1;
      LinkAllKeeps(f, sha, message, attachments[..n]);
      LinkKeeps(LinkAll(f, message, attachments[..n]), sha, message, attachments[n], n);
    }
  }

  /** A new message's attachments get different orders. */
  lemma {:induction false} LinkAllDiffers(f: Files, message: Id, attachments: seq<Id>)
    requires OrdersDiffer(f.links) && forall a: Id :: (message, a) !in f.links
    ensures var links := LinkAll(f, message, attachments).links;
            OrdersDiffer(links) && forall a: Id :: (message, a) in links ==> links[(message, a)] < |attachments|
    decreases |attachments|
  {
    if attachments != [] {
      var n := |attachments| - 1;
      LinkAllDiffers(f, message, attachments[..n]);
      var g := LinkAll(f, message, attachments[..n]);
      forall key | key in g.links && key.0 == message ensures g.links[key] != n { assert key == (message, key.1); }
      LinkDiffers(g, message, attachments[n], n);
    }
  }

  /** A retried event changes nothing; a new one becomes the last row of the transcript,
      with its attachments, and is searchable unless it is tool output. */
  ghost function AppendEffect(d: Database, conversation: Id, role: Role, content: string, event: Option<Id>,
                              attachments: seq<Id>, completed: bool, id: Id): Database
    requires conversation in d.conversations
  {
    if Repeated(d.messages, conversation, event) then d
    else Write(d, id, NewMessage(d, conversation, role, content, event, completed), LinkAll(d.files, id, attachments))
  }

  lemma LinkAllRules(m: Messages, f: Files, sha: Bytes -> Digest, id: Id, row: Message, attachments: seq<Id>)
    requires FileRules(m, f, sha) && id !in m && forall a :: a in attachments ==> a in f.attachments
    ensures FileRules(m[id := row], LinkAll(f, id, attachments), sha)
  {
    LinkAllDiffers(f, id, attachments);
    LinkAllKeeps(f, sha, id, attachments);
  }

  lemma AppendKeeps(d: Database, sha: Bytes -> Digest, conversation: Id, role: Role, content: string,
                    event: Option<Id>, attachments: seq<Id>, completed: bool, id: Id)
    requires Inv(d, sha) && LiveConversation(d.conversations, conversation) && id !in d.messages
    requires forall a :: a in attachments ==> a in d.files.attachments
    ensures Inv(AppendEffect(d, conversation, role, content, event, attachments, completed, id), sha)
  {
    if !Repeated(d.messages, conversation, event) {
      var row := NewMessage(d, conversation, role, content, event, completed);
      NextIsUnused(d.messages, id, row);
      LinkAllRules(d.messages, d.files, sha, id, row, attachments);
      WriteKeeps(d, sha, id, row, LinkAll(d.files, id, attachments));
    }
  }

  /** An event resent after a lost reply, in whatever state, adds nothing. */
  lemma AppendTwice(d: Database, conversation: Id, role: Role, content: string, event: Id, attachments: seq<Id>, completed: bool,
                    id: Id, role': Role, content': string, attachments': seq<Id>, completed': bool, id': Id)
    requires conversation in d.conversations
    ensures var e := AppendEffect(d, conversation, role, content, Some(event), attachments, completed, id);
            AppendEffect(e, conversation, role', content', Some(event), attachments', completed', id') == e
  {
    hide Segment, Blank, IndexAfter, LinkAll;
    var e := AppendEffect(d, conversation, role, content, Some(event), attachments, completed, id);
    if !Repeated(d.messages, conversation, Some(event)) {
      assert id in e.messages && e.messages[id].conversation == conversation && e.messages[id].event == Some(event);
    }
  }

  lemma OpensStays(d: Database, e: Database, actor: Actor, id: Id, some: seq<Id>, x: Id)
    requires id !in d.messages && id in e.messages && e.messages == d.messages[id := e.messages[id]]
    requires e == d.(messages := e.messages, files := LinkAll(d.files, id, some)) && x in d.messages
    ensures Opens(e, actor, x) <==> Opens(d, actor, x)
  {
    hide LinkAll;
  }

  /** Linking this message's own earlier attachments opens no new way to read one. */
  lemma ReadableStays(d: Database, e: Database, actor: Actor, id: Id, some: seq<Id>, a: Id)
    requires id !in d.messages && id in e.messages && e.messages == d.messages[id := e.messages[id]]
    requires e == d.(messages := e.messages, files := LinkAll(d.files, id, some))
    requires forall message: Id, b: Id :: (message, b) in d.files.links ==> message in d.messages
    requires AllReadable(d, actor, some)
    ensures Readable(e, actor, a) <==> Readable(d, actor, a)
  {
    hide Opens;
    if Readable(d, actor, a) {
      var key :| key in d.files.links && key.1 == a && Opens(d, actor, key.0);
      assert key == (key.0, key.1);
      OpensStays(d, e, actor, id, some, key.0);
      assert key in e.files.links && Opens(e, actor, key.0);
    } else if Readable(e, actor, a) {
      ReadableBefore(d, e, actor, id, some, a);
    }
  }

  lemma ReadableBefore(d: Database, e: Database, actor: Actor, id: Id, some: seq<Id>, a: Id)
    requires id !in d.messages && id in e.messages && e.messages == d.messages[id := e.messages[id]]
    requires e == d.(messages := e.messages, files := LinkAll(d.files, id, some))
    requires forall message: Id, b: Id :: (message, b) in d.files.links ==> message in d.messages
    requires AllReadable(d, actor, some)
    requires Readable(e, actor, a)
    ensures Readable(d, actor, a)
  {
    hide Opens;
    var key :| key in e.files.links && key.1 == a && Opens(e, actor, key.0);
    assert key == (key.0, key.1);
    if a !in some {
      assert key in d.files.links;
      OpensStays(d, e, actor, id, some, key.0);
    }
  }

  /** The attachment loop of `append`: each must be readable before it is linked. */
  method LinkReadable(db: Handle, actor: Actor, id: Id, attachments: seq<Id>, ghost begin: Database) returns (r: Outcome)
    requires id !in begin.messages && id in db.tables.messages
    requires forall message: Id, a: Id :: (message, a) in begin.files.links ==> message in begin.messages
    requires db.tables == begin.(messages := begin.messages[id := db.tables.messages[id]])
    modifies db
    ensures r == if !AllReadable(begin, actor, attachments) then Failed(NotFound) else Done
    ensures r == Done ==> db.tables == old(db.tables).(files := LinkAll(begin.files, id, attachments))
  {
    ghost var start := db.tables;
    for i := 0 to |attachments|
      invariant db.tables == start.(files := LinkAll(begin.files, id, attachments[..i]))
      invariant AllReadable(begin, actor, attachments[..i])
    {
      ReadableStays(begin, db.tables, actor, id, attachments[..i], attachments[i]);
      if !Readable(db.tables, actor, attachments[i]) {
        return Failed(NotFound);
      }
      LinkAllNext(begin.files, id, attachments, i);
      db.tables := db.tables.(files := Link(db.tables.files, id, attachments[i], i));
    }
    assert attachments[..|attachments|] == attachments;
    r := Done;
  }

  lemma LinkAllNext(f: Files, message: Id, attachments: seq<Id>, i: nat)
    requires i < |attachments|
    ensures LinkAll(f, message, attachments[..i + 1]) == Link(LinkAll(f, message, attachments[..i]), message, attachments[i], i)
    ensures attachments[..i + 1] == attachments[..i] + [attachments[i]]
  {
    assert attachments[..i + 1] == attachments[..i] + [attachments[i]];
    assert attachments[..i + 1][..i] == attachments[..i];
  }

  /** The insert, the links and the index entry of a new message. */
  method AppendNew(db: Handle, actor: Actor, conversation: Id, role: Role, content: string, event: Option<Id>,
                   attachments: seq<Id>, completed: bool, id: Id) returns (r: Outcome)
    requires id !in db.tables.messages && conversation in db.tables.conversations
    requires forall x: Id, a: Id :: (x, a) in db.tables.files.links ==> x in db.tables.messages
    modifies db
    ensures var d := old(db.tables);
            r == if !AllReadable(d, actor, attachments) then Failed(NotFound) else Done
    ensures var d := old(db.tables);
            r == Done ==> db.tables == Write(d, id, NewMessage(d, conversation, role, content, event, completed),
                                             LinkAll(d.files, id, attachments))
  {
    hide Segment, Blank;
    ghost var begin := db.tables;
    var next := FindNextSequenceNo(db.tables.messages, conversation);
    var row := Message(conversation, None, next, role, content, event, completed, None);
    db.tables := db.tables.(messages := db.tables.messages[id := row]);
    r := LinkReadable(db, actor, id, attachments, begin);
    if r.Failed? {
      return;
    }
    if Indexed(role) {
      IndexMessage(db, id, conversation, db.tables.conversations[conversation].project, content);
    }
  }

  /** `by_external_event` */
  method FindByEvent(m: Messages, conversation: Id, event: Option<Id>) returns (message: Option<Id>)
    ensures message.Some? <==> Repeated(m, conversation, event)
    ensures message.Some? ==> message.value in m && m[message.value].conversation == conversation && m[message.value].event == event
  {
    if Repeated(m, conversation, event) {
      var id :| id in m && m[id].conversation == conversation && m[id].event == event;
      return Some(id);
    }
    message := None;
  }

  lemma AppendedRow(d: Database, conversation: Id, role: Role, content: string, event: Option<Id>, attachments: seq<Id>, completed: bool, id: Id)
    requires conversation in d.conversations && !Repeated(d.messages, conversation, event)
    ensures var e := AppendEffect(d, conversation, role, content, event, attachments, completed, id);
            e == Write(d, id, NewMessage(d, conversation, role, content, event, completed), LinkAll(d.files, id, attachments))
            && id in e.messages && e.messages[id].conversation == conversation && e.messages[id].event == event
  {}

  /** `append`; returns the row written, or the one a retried event already made. */
  method Append(db: Handle, actor: Actor, conversation: Id, role: Role, content: string, event: Option<Id>,
                attachments: seq<Id>, completed: bool, id: Id) returns (r: Outcome, message: Id)
    requires id !in db.tables.messages
    requires forall x: Id, a: Id :: (x, a) in db.tables.files.links ==> x in db.tables.messages
    modifies db
    ensures r == AppendVerdict(old(db.tables), actor, conversation, event, attachments)
    ensures r == Done ==> db.tables == AppendEffect(old(db.tables), conversation, role, content, event, attachments, completed, id)
    ensures r == Done ==> message in db.tables.messages && db.tables.messages[message].conversation == conversation
                          && db.tables.messages[message].event == event
    ensures r != Done ==> db.tables == old(db.tables)
  {
    hide Segment, Blank, LinkAll, ConversationGate, AllReadable, NextSequenceNo, Repeated, Write, NewMessage;
    message := id;
    var begin := db.tables;
    r := CheckConversation(db, actor, conversation);
    if r.Failed? {
      return;
    }
    var existing := FindByEvent(db.tables.messages, conversation, event);
    if existing.Some? {
      message := existing.value;
      return;
    }
    AppendedRow(begin, conversation, role, content, event, attachments, completed, id);
    r := AppendNew(db, actor, conversation, role, content, event, attachments, completed, id);
    if r.Failed? {
      db.tables := begin; // ROLLBACK
    }
  }

  // ------------------------------------------------------------- streaming

  /** A live message of a live conversation the caller may write to. */
  function MessageGate(d: Database, actor: Actor, id: Id): (r: Outcome)
    ensures r == Done ==> LiveMessage(d.messages, id) && LiveConversation(d.conversations, d.messages[id].conversation)
  {
    if !LiveMessage(d.messages, id) then Failed(NotFound) else ConversationGate(d, actor, d.messages[id].conversation)
  }

  method CheckMessage(db: Handle, actor: Actor, id: Id) returns (r: Outcome)
    ensures r == MessageGate(db.tables, actor, id)
  {
    if !LiveMessage(db.tables.messages, id) {
      return Failed(NotFound);
    }
    r := CheckConversation(db, actor, db.tables.messages[id].conversation);
  }

  /** The text grows; the index is not told. */
  function AppendDeltaEffect(d: Database, id: Id, delta: string): Database
    requires id in d.messages
  {
    d.(messages := d.messages[id := d.messages[id].(content := d.messages[id].content + delta)], grown := d.grown + {id})
  }

  lemma GrowMirrored(c: Conversations, m: Messages, mi: MessageIndex, grown: set<Id>, id: Id, text: string)
    requires MessageRules(c, m) && MessagesMirrored(c, m, mi, grown) && LiveMessage(m, id)
    ensures var n := m[id := m[id].(content := text)];
            MessageRules(c, n) && MessagesMirrored(c, n, mi, grown + {id})
  {
    var row := m[id].(content := text);
    PutMessageRules(c, m, id, row);
    assert Mirrors(c, m, mi, grown, id);
    PutMirrored(c, m, mi, grown, id, row, mi, grown + {id});
  }

  lemma AppendDeltaKeeps(d: Database, sha: Bytes -> Digest, id: Id, delta: string)
    requires Inv(d, sha) && LiveMessage(d.messages, id)
    ensures Inv(AppendDeltaEffect(d, id, delta), sha)
  {
    var e := AppendDeltaEffect(d, id, delta);
    GrowMirrored(d.conversations, d.messages, d.messageIndex, d.grown, id, e.messages[id].content);
  }

  /** `append_delta` */
  method AppendDelta(db: Handle, actor: Actor, id: Id, delta: string) returns (r: Outcome)
    modifies db
    ensures r == MessageGate(old(db.tables), actor, id)
    ensures db.tables == if r == Done then AppendDeltaEffect(old(db.tables), id, delta) else old(db.tables)
  {
    r := CheckMessage(db, actor, id);
    if r == Done {
      var row := db.tables.messages[id];
      db.tables := db.tables.(messages := db.tables.messages[id := row.(content := row.content + delta)], grown := db.tables.grown + {id});
    }
  }

  function CompletedRow(row: Message, content: Option<string>): Message {
    row.(completed := true, content := if content.Some? then content.value else row.content)
  }

  lemma CompleteKeeps(d: Database, sha: Bytes -> Digest, id: Id, content: Option<string>)
    requires Inv(d, sha) && LiveMessage(d.messages, id) && LiveConversation(d.conversations, d.messages[id].conversation)
    ensures Inv(Write(d, id, CompletedRow(d.messages[id], content), d.files), sha)
  {
    hide Segment, Blank, TreeRules, GrantsLinked, MessagesMirrored, FilesOk, OrdersDiffer, WithMessage, Write;
    WriteKeeps(d, sha, id, CompletedRow(d.messages[id], content), d.files);
  }

  /** `complete`: the streamed text, or its replacement, is final and indexed. */
  method Complete(db: Handle, actor: Actor, id: Id, content: Option<string>) returns (r: Outcome)
    modifies db
    ensures r == MessageGate(old(db.tables), actor, id)
    ensures db.tables == if r == Done then Write(old(db.tables), id, CompletedRow(old(db.tables.messages[id]), content), old(db.tables.files))
                         else old(db.tables)
  {
    r := CheckMessage(db, actor, id);
    if r == Done {
      var row := db.tables.messages[id].(completed := true);
      if content.Some? {
        row := row.(content := content.value);
      }
      db.tables := db.tables.(messages := db.tables.messages[id := row]);
      if Indexed(row.role) {
        IndexMessage(db, id, row.conversation, db.tables.conversations[row.conversation].project, row.content);
      }
    }
  }

  // ---------------------------------------------------------------- cancel

  /** Every open live message of the conversation is closed. */
  function Closed(m: Messages, conversation: Id): Messages {
    map id | id in m ::
      if m[id].conversation == conversation && m[id].deletedAt == None then m[id].(completed := true) else m[id]
  }

  ghost function CancelTurnEffect(d: Database, conversation: Id, note: string, id: Id): Database
    requires conversation in d.conversations
  {
    var e := d.(messages := Closed(d.messages, conversation));
    Write(e, id, NewMessage(d, conversation, MetaRole, note, None, true), d.files)
  }

  lemma ClosedNumbers(m: Messages, conversation: Id)
    ensures Numbers(Closed(m, conversation), conversation) == Numbers(m, conversation)
  {
    var n := Closed(m, conversation);
    forall x | x in m && m[x].conversation == conversation ensures m[x].sequenceNo in Numbers(n, conversation) {
      assert x in n && n[x].conversation == conversation;
    }
    forall x | x in n && n[x].conversation == conversation ensures n[x].sequenceNo in Numbers(m, conversation) {
      assert x in m && m[x].conversation == conversation;
    }
  }

  lemma ClosedRules(c: Conversations, m: Messages, mi: MessageIndex, grown: set<Id>, conversation: Id)
    requires MessageRules(c, m) && MessagesMirrored(c, m, mi, grown)
    ensures MessageRules(c, Closed(m, conversation)) && MessagesMirrored(c, Closed(m, conversation), mi, grown)
  {
    forall x ensures Mirrors(c, Closed(m, conversation), mi, grown, x) {
      assert Mirrors(c, m, mi, grown, x);
    }
  }

  lemma ClosedKeeps(d: Database, sha: Bytes -> Digest, conversation: Id)
    requires Inv(d, sha)
    ensures Inv(d.(messages := Closed(d.messages, conversation)), sha)
  {
    ClosedRules(d.conversations, d.messages, d.messageIndex, d.grown, conversation);
  }

  lemma CancelTurnKeeps(d: Database, sha: Bytes -> Digest, conversation: Id, note: string, id: Id)
    requires Inv(d, sha) && LiveConversation(d.conversations, conversation) && id !in d.messages
    ensures Inv(CancelTurnEffect(d, conversation, note, id), sha)
  {
    hide Segment, Blank, TreeRules, GrantsLinked, MessagesMirrored, FilesOk, OrdersDiffer, WithMessage, Write;
    ClosedKeeps(d, sha, conversation);
    ClosedNumbers(d.messages, conversation);
    var e := d.(messages := Closed(d.messages, conversation));
    var row := NewMessage(d, conversation, MetaRole, note, None, true);
    NextIsUnused(e.messages, id, row);
    WriteKeeps(e, sha, id, row, d.files);
  }

  /** `cancel_turn` */
  method CancelTurn(db: Handle, actor: Actor, conversation: Id, note: string, id: Id) returns (r: Outcome)
    modifies db
    ensures r == ConversationGate(old(db.tables), actor, conversation)
    ensures db.tables == if r == Done then CancelTurnEffect(old(db.tables), conversation, note, id) else old(db.tables)
  {
    r := CheckConversation(db, actor, conversation);
    if r == Done {
      var next := FindNextSequenceNo(db.tables.messages, conversation);
      db.tables := db.tables.(messages := Closed(db.tables.messages, conversation));
      var row := Message(conversation, None, next, MetaRole, note, None, true, None);
      db.tables := db.tables.(messages := db.tables.messages[id := row]);
      IndexMessage(db, id, conversation, db.tables.conversations[conversation].project, note);
    }
  }

  // ---------------------------------------------------------------- delete

  function DeleteMessageEffect(d: Database, id: Id, now: Stamp): Database {
    d.(messages := MarkMessages(d.messages, {id}, Some(now)), messageIndex := d.messageIndex - {id})
  }

  lemma DeleteMessageKeeps(d: Database, sha: Bytes -> Digest, id: Id, now: Stamp)
    requires Inv(d, sha) && LiveMessage(d.messages, id)
    ensures Inv(DeleteMessageEffect(d, id, now), sha)
  {
    hide Inv;
    DropMessagesKeeps(d, sha, {id}, now);
  }

  /** `delete_message` */
  method DeleteMessage(db: Handle, actor: Actor, id: Id, now: Stamp) returns (r: Outcome)
    modifies db
    ensures r == MessageGate(old(db.tables), actor, id)
    ensures db.tables == if r == Done then DeleteMessageEffect(old(db.tables), id, now) else old(db.tables)
  {
    r := CheckMessage(db, actor, id);
    if r == Done {
      var row := db.tables.messages[id];
      db.tables := db.tables.(messages := db.tables.messages[id := row.(deletedAt := Some(now))]);
      assert db.tables.messages == MarkMessages(old(db.tables.messages), {id}, Some(now));
      DropMessages(db, [id]);
      assert IdSet([id]) == {id};
    }
  }

  // ------------------------------------------------- what happens to a transcript

  lemma NextIsLast(m: Messages, conversation: Id)
    ensures forall x :: x in m && m[x].conversation == conversation ==> m[x].sequenceNo < NextSequenceNo(m, conversation)
  {
    forall x | x in m && m[x].conversation == conversation ensures m[x].sequenceNo < NextSequenceNo(m, conversation) {
      assert m[x].sequenceNo in Numbers(m, conversation);
    }
  }

  lemma WriteExtends(m: Messages, id: Id, row: Message, order: seq<Id>)
    requires Transcript(m, row.conversation, order) && id !in m && row.deletedAt == None
    requires forall x :: x in m && m[x].conversation == row.conversation ==> m[x].sequenceNo < row.sequenceNo
    ensures Transcript(m[id := row], row.conversation, order + [id])
  {
    var more, n := order + [id], m[id := row];
    assert forall i :: 0 <= i < |order| ==> more[i] == order[i] && order[i] in order;
    assert more[|order|] == id;
    forall x ensures x in more <==> LiveMessage(n, x) && n[x].conversation == row.conversation {
      assert x in more <==> x in order || x == id;
    }
  }

  /** An attachment is linked at its first place in the list. */
  lemma {:induction false} LinkAllOrder(f: Files, message: Id, attachments: seq<Id>, i: nat)
    requires i < |attachments| && attachments[i] !in attachments[..i] && forall a: Id :: (message, a) !in f.links
    ensures (message, attachments[i]) in LinkAll(f, message, attachments).links
    ensures LinkAll(f, message, attachments).links[(message, attachments[i])] == i
    decreases |attachments|
  {
    var n := |attachments| - 1;
    if i < n {
      assert attachments[..n][..i] == attachments[..i];
      LinkAllOrder(f, message, attachments[..n], i);
    }
  }

  /** A new message is the last of its transcript and has exactly the attachments named, in
      the order named; no other message changes. */
  lemma AppendExtends(d: Database, conversation: Id, role: Role, content: string, event: Option<Id>, attachments: seq<Id>,
                      completed: bool, id: Id, order: seq<Id>)
    requires conversation in d.conversations && id !in d.messages && !Repeated(d.messages, conversation, event)
    requires Transcript(d.messages, conversation, order) && forall a: Id :: (id, a) !in d.files.links
    ensures var e := AppendEffect(d, conversation, role, content, event, attachments, completed, id);
            Transcript(e.messages, conversation, order + [id]) && e.messages - {id} == d.messages
            && e.messages[id].role == role && e.messages[id].content == content && e.messages[id].completed == completed
            && (forall a: Id :: (id, a) in e.files.links <==> a in attachments)
            && forall i {:trigger attachments[i]} :: 0 <= i < |attachments| && attachments[i] !in attachments[..i] ==>
                 e.files.links[(id, attachments[i])] == i
  {
    forall i | 0 <= i < |attachments| && attachments[i] !in attachments[..i]
      ensures LinkAll(d.files, id, attachments).links[(id, attachments[i])] == i
    {
      LinkAllOrder(d.files, id, attachments, i);
    }
    NextIsLast(d.messages, conversation);
    WriteExtends(d.messages, id, NewMessage(d, conversation, role, content, event, completed), order);
  }

  /** A cancelled turn leaves nothing open and its note at the end. */
  lemma CancelTurnExtends(d: Database, conversation: Id, note: string, id: Id, order: seq<Id>)
    requires conversation in d.conversations && id !in d.messages && Transcript(d.messages, conversation, order)
    ensures var e := CancelTurnEffect(d, conversation, note, id);
            Transcript(e.messages, conversation, order + [id]) && e.messages[id].role == MetaRole && e.messages[id].content == note
            && forall i :: 0 <= i <= |order| ==> e.messages[(order + [id])[i]].completed
  {
    var m := Closed(d.messages, conversation);
    ClosedNumbers(d.messages, conversation);
    NextIsLast(m, conversation);
    assert Transcript(m, conversation, order);
    WriteExtends(m, id, NewMessage(d, conversation, MetaRole, note, None, true), order);
  }

  /** A deleted message leaves the transcript; the others keep their order. */
  lemma DeleteMessageShortens(d: Database, id: Id, now: Stamp, order: seq<Id>, i: nat)
    requires LiveMessage(d.messages, id) && Transcript(d.messages, d.messages[id].conversation, order)
    requires i < |order| && order[i] == id
    ensures Transcript(DeleteMessageEffect(d, id, now).messages, d.messages[id].conversation, order[..i] + order[i + 1..])
  {
    CutAt(order, i);
    var m, n, rest := d.messages, DeleteMessageEffect(d, id, now).messages, order[..i] + order[i + 1..];
    hide MarkMessages, DeleteMessageEffect;
    assert n == MarkMessages(m, {id}, Some(now));
    OneMarked(m, id, now);
    forall x ensures x in rest <==> LiveMessage(n, x) && n[x].conversation == m[id].conversation {
      assert x in rest <==> x in order && x != id;
    }
  }

  lemma OneMarked(m: Messages, id: Id, now: Stamp)
    ensures var n := MarkMessages(m, {id}, Some(now));
            n.Keys == m.Keys && forall x :: x in m ==> n[x] == if x == id then m[x].(deletedAt := Some(now)) else m[x]
  {}

  lemma CutAt(order: seq<Id>, i: nat)
    requires i < |order| && forall j, k :: 0 <= j < k < |order| ==> order[j] != order[k]
    ensures var rest := order[..i] + order[i + 1..];
            (forall x :: x in rest <==> x in order && x != order[i])
            && forall j :: 0 <= j < |rest| ==> rest[j] == order[if j < i then j else j + 1]
  {
    var rest := order[..i] + order[i + 1..];
    forall x | x in order && x != order[i] ensures x in rest {
      var j :| 0 <= j < |order| && order[j] == x;
      assert rest[if j < i then j else j - 1] == x;
    }
  }

  /** A reset empties the transcript. */
  lemma ResetEmpties(d: Database, id: Id, now: Stamp)
    requires id in d.conversations
    ensures Transcript(ResetEffect(d, id, now).messages, id, [])
  {
    forall x ensures !(LiveMessage(ResetEffect(d, id, now).messages, x) && ResetEffect(d, id, now).messages[x].conversation == id) {
      assert x in d.messages && d.messages[x].conversation == id && d.messages[x].deletedAt == None ==> x in LiveMessagesOf(d.messages, {id});
    }
  }
}
