/** Index maintenance (`index_*`, `drop_*` and `reindex_conversation` in
  `tree_agent/server/repositories/search.py`). Every statement runs in the transaction of
  the row it describes. */
module Indexing {
  import opened Base
  import opened Tables
  import opened Search
  import opened Schema

  // --------------------------------------------------------------- statements

  function WithMessage(mi: MessageIndex, id: Id, conversation: Id, project: Id, content: string): MessageIndex {
    if Blank(content) then mi - {id} else mi[id := MessageEntry(conversation, project, Segment(content))]
  }

  /** `index_project`: delete, then insert. */
  method IndexProject(db: Handle, id: Id, name: string, prompt: string)
    modifies db
    ensures db.tables == old(db.tables).(projectIndex := old(db.tables.projectIndex)[id := ProjectEntry(Segment(name), Segment(prompt))])
  {
    var index := db.tables.projectIndex - {id};
    index := index[id := ProjectEntry(Segment(name), Segment(prompt))];
    db.tables := db.tables.(projectIndex := index);
  }

  /** `index_conversation` */
  method IndexConversation(db: Handle, id: Id, project: Id, name: string)
    modifies db
    ensures db.tables == old(db.tables).(conversationIndex := old(db.tables.conversationIndex)[id := ConversationEntry(project, Segment(name))])
  {
    var index := db.tables.conversationIndex - {id};
    index := index[id := ConversationEntry(project, Segment(name))];
    db.tables := db.tables.(conversationIndex := index);
  }

  /** `index_message`: delete, then insert unless the text is blank. */
  method IndexMessage(db: Handle, id: Id, conversation: Id, project: Id, content: string)
    modifies db
    ensures db.tables == old(db.tables).(messageIndex := WithMessage(old(db.tables.messageIndex), id, conversation, project, content),
                                         grown := old(db.tables.grown) - {id})
  {
    var index := db.tables.messageIndex - {id};
    if !Blank(content) {
      index := index[id := MessageEntry(conversation, project, Segment(content))];
    }
    db.tables := db.tables.(messageIndex := index, grown := db.tables.grown - {id});
  }

  function IdSet(order: seq<Id>): set<Id> { set id | id in order }

  lemma IdSetGrows(order: seq<Id>, n: nat)
    requires n < |order|
    ensures IdSet(order[..n + 1]) == IdSet(order[..n]) + {order[n]}
  {
    assert order[..n + 1] == order[..n] + [order[n]];
  }

  lemma IdSetBounds(order: seq<Id>)
    ensures IdSet(order[..0]) == {} && order[..|order|] == order
  {}

  /** The ids a query returned, in some order. */
  method Listing(ids: set<Id>) returns (order: seq<Id>)
    ensures IdSet(order) == ids
  {
    order := [];
    var rest := ids;
    while rest != {}
      invariant rest <= ids && forall id :: id in order <==> id in ids && id !in rest
      decreases |rest|
    {
      var id :| id in rest;
      rest := rest - {id};
      order := order + [id];
    }
  }

  /** `drop_messages`, one DELETE per id. */
  method DropMessages(db: Handle, order: seq<Id>)
    modifies db
    ensures db.tables == old(db.tables).(messageIndex := old(db.tables.messageIndex) - IdSet(order))
  {
    IdSetBounds(order);
    for i := 0 to |order|
      invariant db.tables == old(db.tables).(messageIndex := old(db.tables.messageIndex) - IdSet(order[..i]))
    {
      IdSetGrows(order, i);
      db.tables := db.tables.(messageIndex := db.tables.messageIndex - {order[i]});
    }
  }

  method DropConversations(db: Handle, order: seq<Id>)
    modifies db
    ensures db.tables == old(db.tables).(conversationIndex := old(db.tables.conversationIndex) - IdSet(order))
  {
    IdSetBounds(order);
    for i := 0 to |order|
      invariant db.tables == old(db.tables).(conversationIndex := old(db.tables.conversationIndex) - IdSet(order[..i]))
    {
      IdSetGrows(order, i);
      db.tables := db.tables.(conversationIndex := db.tables.conversationIndex - {order[i]});
    }
  }

  method DropProjects(db: Handle, order: seq<Id>)
    modifies db
    ensures db.tables == old(db.tables).(projectIndex := old(db.tables.projectIndex) - IdSet(order))
  {
    IdSetBounds(order);
    for i := 0 to |order|
      invariant db.tables == old(db.tables).(projectIndex := old(db.tables.projectIndex) - IdSet(order[..i]))
    {
      IdSetGrows(order, i);
      db.tables := db.tables.(projectIndex := db.tables.projectIndex - {order[i]});
    }
  }

  // -------------------------------------------------------------- reindexing

  function LiveMessagesOf(m: Messages, conversations: set<Id>): set<Id> {
    set id | id in m && m[id].conversation in conversations && m[id].deletedAt == None
  }

  /** The message index after these messages were indexed anew, each under its
      conversation's project. */
  function ReindexedMessages(c: Conversations, m: Messages, mi: MessageIndex, ids: set<Id>): MessageIndex {
    map id | id in mi.Keys + m.Keys && if Refreshed(c, m, ids, id) then !Blank(m[id].content) else id in mi
      :: if Refreshed(c, m, ids, id)
         then MessageEntry(m[id].conversation, c[m[id].conversation].project, Segment(m[id].content))
         else mi[id]
  }

  predicate Refreshed(c: Conversations, m: Messages, ids: set<Id>, id: Id) {
    id in ids && id in m && m[id].conversation in c
  }

  function ReindexedConversations(c: Conversations, ci: ConversationIndex, ids: set<Id>): ConversationIndex {
    map id | id in ci.Keys + c.Keys && ((id in ids && id in c) || id in ci)
      :: if id in ids && id in c then ConversationEntry(c[id].project, Segment(c[id].name)) else ci[id]
  }

  /** `reindex_conversation` over a set of conversations: their own entries and those of
      all their live messages, tool output included. */
  function Reindexed(d: Database, conversations: set<Id>): Database {
    var ids := LiveMessagesOf(d.messages, conversations);
    d.(conversationIndex := ReindexedConversations(d.conversations, d.conversationIndex, conversations),
       messageIndex := ReindexedMessages(d.conversations, d.messages, d.messageIndex, ids),
       grown := d.grown - ids)
  }

  lemma OneMoreMessage(c: Conversations, m: Messages, mi: MessageIndex, ids: set<Id>, id: Id)
    requires id in m && m[id].conversation in c
    ensures ReindexedMessages(c, m, mi, ids + {id})
         == WithMessage(ReindexedMessages(c, m, mi, ids), id, m[id].conversation, c[m[id].conversation].project, m[id].content)
  {
    hide Segment, Blank;
  }


  /** The message loop of `reindex_conversation`. */
  method IndexAll(db: Handle, conversation: Id, order: seq<Id>)
    requires conversation in db.tables.conversations
    requires forall i :: 0 <= i < |order| ==>
               order[i] in db.tables.messages && db.tables.messages[order[i]].conversation == conversation
    modifies db
    ensures db.tables == MessagesReindexed(old(db.tables), IdSet(order))
  {
    ghost var d := db.tables;
    IdSetBounds(order);
    for i := 0 to |order|
      invariant db.tables == MessagesReindexed(d, IdSet(order[..i]))
    {
      IdSetGrows(order, i);
      OneMoreMessage(d.conversations, d.messages, d.messageIndex, IdSet(order[..i]), order[i]);
      IndexMessage(db, order[i], conversation, db.tables.conversations[conversation].project, db.tables.messages[order[i]].content);
    }
  }

  function MessagesReindexed(d: Database, ids: set<Id>): Database {
    d.(messageIndex := ReindexedMessages(d.conversations, d.messages, d.messageIndex, ids), grown := d.grown - ids)
  }

  lemma OneConversation(c: Conversations, ci: ConversationIndex, id: Id)
    requires id in c
    ensures ReindexedConversations(c, ci, {id}) == ci[id := ConversationEntry(c[id].project, Segment(c[id].name))]
  {}

  /** `reindex_conversation` */
  method ReindexConversation(db: Handle, conversation: Id)
    requires conversation in db.tables.conversations
    modifies db
    ensures db.tables == Reindexed(old(db.tables), {conversation})
  {
    OneConversation(db.tables.conversations, db.tables.conversationIndex, conversation);
    var row := db.tables.conversations[conversation];
    IndexConversation(db, conversation, row.project, row.name);
    var order := Listing(LiveMessagesOf(db.tables.messages, {conversation}));
    assert forall i :: 0 <= i < |order| ==> order[i] in IdSet(order);
    IndexAll(db, conversation, order);
  }

  lemma ReindexMessagesTwice(c: Conversations, m: Messages, mi: MessageIndex, a: set<Id>, b: set<Id>)
    ensures ReindexedMessages(c, m, ReindexedMessages(c, m, mi, a), b) == ReindexedMessages(c, m, mi, a + b)
  {
    hide Segment, Blank;
  }

  lemma ReindexConversationsTwice(c: Conversations, ci: ConversationIndex, a: set<Id>, b: set<Id>)
    ensures ReindexedConversations(c, ReindexedConversations(c, ci, a), b) == ReindexedConversations(c, ci, a + b)
  {
    hide Segment, Blank;
  }

  lemma ReindexTwice(d: Database, a: set<Id>, b: set<Id>)
    ensures Reindexed(Reindexed(d, a), b) == Reindexed(d, a + b)
  {
    var ids, more := LiveMessagesOf(d.messages, a), LiveMessagesOf(d.messages, b);
    assert LiveMessagesOf(d.messages, a + b) == ids + more;
    ReindexMessagesTwice(d.conversations, d.messages, d.messageIndex, ids, more);
    ReindexConversationsTwice(d.conversations, d.conversationIndex, a, b);
    assert d.grown - ids - more == d.grown - (ids + more);
  }

  function ReindexedProjects(p: Projects, pi: ProjectIndex, ids: set<Id>): ProjectIndex {
    map id | id in pi.Keys + p.Keys && ((id in ids && id in p) || id in pi)
      :: if id in ids && id in p then ProjectEntry(Segment(p[id].name), Segment(p[id].prompt)) else pi[id]
  }

  lemma OneMoreProject(p: Projects, pi: ProjectIndex, ids: set<Id>, id: Id)
    requires id in p
    ensures ReindexedProjects(p, pi, ids + {id})
         == ReindexedProjects(p, pi, ids)[id := ProjectEntry(Segment(p[id].name), Segment(p[id].prompt))]
    ensures ReindexedProjects(p, pi, {}) == pi
  {
    hide Segment, Blank;
  }

  /** The project loop of `_reindex`. */
  method ReindexProjects(db: Handle, order: seq<Id>)
    requires IdSet(order) <= db.tables.projects.Keys
    modifies db
    ensures db.tables == old(db.tables).(projectIndex :=
              ReindexedProjects(old(db.tables.projects), old(db.tables.projectIndex), IdSet(order)))
  {
    ghost var d := db.tables;
    IdSetBounds(order);
    assert ReindexedProjects(d.projects, d.projectIndex, {}) == d.projectIndex;
    for i := 0 to |order|
      invariant db.tables == d.(projectIndex := ReindexedProjects(d.projects, d.projectIndex, IdSet(order[..i])))
    {
      IdSetGrows(order, i);
      assert order[i] in IdSet(order);
      OneMoreProject(d.projects, d.projectIndex, IdSet(order[..i]), order[i]);
      IndexProject(db, order[i], db.tables.projects[order[i]].name, db.tables.projects[order[i]].prompt);
    }
  }

  lemma ReindexNothing(d: Database)
    ensures Reindexed(d, {}) == d
  {
    hide Segment, Blank;
    assert LiveMessagesOf(d.messages, {}) == {};
  }

  /** The conversation loop of `_reindex`. */
  method ReindexConversations(db: Handle, order: seq<Id>)
    requires IdSet(order) <= db.tables.conversations.Keys
    modifies db
    ensures db.tables == Reindexed(old(db.tables), IdSet(order))
  {
    ghost var d := db.tables;
    IdSetBounds(order);
    ReindexNothing(d);
    for i := 0 to |order|
      invariant db.tables == Reindexed(d, IdSet(order[..i])) && db.tables.conversations == d.conversations
    {
      hide Reindexed;
      IdSetGrows(order, i);
      ReindexTwice(d, IdSet(order[..i]), {order[i]});
      assert order[i] in IdSet(order);
      ReindexConversation(db, order[i]);
    }
  }


  /** Reindexing a set of conversations makes the index right for their messages whatever
      it said about them before, and leaves every other message as it was. */
  lemma ReindexMirrors(c: Conversations, m: Messages, mi: MessageIndex, grown: set<Id>, conversations: set<Id>)
    requires MessagesLinked(c, m)
    requires forall id :: id in m && m[id].conversation in conversations && id in mi ==> LiveMessage(m, id)
    requires forall id :: Mirrors(c, m, mi, grown, id) || (id in m && m[id].conversation in conversations)
    ensures var ids := LiveMessagesOf(m, conversations);
            MessagesMirrored(c, m, ReindexedMessages(c, m, mi, ids), grown - ids)
  {
    hide Segment, Blank;
    var ids := LiveMessagesOf(m, conversations);
    forall id ensures Mirrors(c, m, ReindexedMessages(c, m, mi, ids), grown - ids, id) {
      assert Mirrors(c, m, mi, grown, id) || (id in m && m[id].conversation in conversations);
    }
  }
}
