/** The permanent purge of `tree_agent/server/services/maintenance.py`. */
module Purge {
  import opened Base
  import opened Naming
  import opened Tables
  import opened Files
  import opened Schema
  import opened Indexing
  import opened Maintenance

  // -------------------------------------------------------------- statements

  function UnlinkMessages(f: Files, gone: set<Id>): Files {
    f.(links := map key | key in f.links && key.0 !in gone :: f.links[key])
  }

  function ForgetTargets(f: Files, gone: set<Id>): Files {
    f.(uploads := map u | u in f.uploads ::
         if f.uploads[u].target.Some? && f.uploads[u].target.value in gone then f.uploads[u].(target := None) else f.uploads[u])
  }

  function ForgetParents(m: Messages, gone: set<Id>): Messages {
    map id | id in m ::
      if m[id].parentMessage.Some? && m[id].parentMessage.value in gone then m[id].(parentMessage := None) else m[id]
  }

  /** `_detach_forks`: the provenance stays, the foreign key goes. */
  function DetachForks(c: Conversations, gone: set<Id>): Conversations {
    map id | id in c ::
      if c[id].forkedFrom.Some? && c[id].forkedFrom.value in gone
      then c[id].(forkedSession := if c[id].forkedSession.Some? then c[id].forkedSession else c[id].forkedFrom, forkedFrom := None)
      else c[id]
  }

  function DropGrants(g: Grants, gone: set<Id>): Grants { map key | key in g && key.0 !in gone :: g[key] }

  function WithoutBytes(f: Files, dead: set<Id>): Files {
    f.(chunks := map key | key in f.chunks && key.0 !in dead :: f.chunks[key],
       attachments := f.attachments - dead,
       uploads := map u | u in f.uploads ::
                    if f.uploads[u].committed.Some? && f.uploads[u].committed.value in dead
                    then f.uploads[u].(committed := None) else f.uploads[u])
  }

  /** What the candidate loop destroys, all at once. */
  function Destroyed(f: Files, candidates: set<Id>): Files {
    WithoutBytes(f, set a | a in candidates && !Referenced(f, a))
  }

  lemma {:induction false} CollectedIs(f: Files, candidates: seq<Id>)
    ensures Collected(f, candidates) == Destroyed(f, IdSet(candidates))
    decreases |candidates|
  {
    if candidates == [] {
      assert (set a | a in IdSet([]) && !Referenced(f, a)) == {};
    } else {
      var n := |candidates| - 1;
      CollectedIs(f, candidates[..n]);
      IdSetGrows(candidates, n);
      assert candidates[..n + 1] == candidates;
      OneMoreDestroyed(f, IdSet(candidates[..n]), candidates[n]);
    }
  }


  lemma OneMoreDead(f: Files, dead: set<Id>, a: Id)
    ensures WithoutBytes(f, dead + {a}) == DeleteBytes(WithoutBytes(f, dead), a)
  {}

  lemma OneMoreDestroyed(f: Files, some: set<Id>, a: Id)
    ensures Referenced(Destroyed(f, some), a) <==> Referenced(f, a)
    ensures Destroyed(f, some + {a}) == if Referenced(f, a) then Destroyed(f, some) else DeleteBytes(Destroyed(f, some), a)
  {
    var dead := set x | x in some && !Referenced(f, x);
    OneMoreDead(f, dead, a);
    assert (set x | x in some + {a} && !Referenced(f, x)) == if Referenced(f, a) then dead else dead + {a};
  }

  /** The tables after a purge. */
  function PurgeEffect(d: Database, cutoff: Stamp): Database {
    var p, c := DueProjects(d.projects, cutoff), DueConversations(d.conversations, cutoff);
    var m := DueMessages(d.conversations, d.messages, cutoff);
    d.(projects := d.projects - p, conversations := DetachForks(d.conversations, c) - c,
       messages := ForgetParents(d.messages, m) - m, grants := DropGrants(d.grants, p),
       projectIndex := d.projectIndex - p, conversationIndex := d.conversationIndex - c, messageIndex := d.messageIndex - m,
       files := Destroyed(ForgetTargets(UnlinkMessages(d.files, m), m), Candidates(d.files, m)))
  }

  // ------------------------------------------------- references at every step

  lemma ReleasedLinked(m: Messages, f: Files, gone: set<Id>, part: set<Id>)
    requires FilesLinked(m, f) && RefsOk(f) && part <= gone
    ensures var g := UnlinkMessages(f, gone);
            FilesLinked(m, g) && RefsOk(g) && FilesLinked(m, ForgetTargets(g, gone)) && RefsOk(ForgetTargets(g, gone))
            && FilesLinked(ForgetParents(m, gone), g) && FilesLinked(ForgetParents(m, gone), ForgetTargets(g, gone))
            && FilesLinked(ForgetParents(m, gone) - part, ForgetTargets(g, gone))
  {}

  lemma ParentsForgotten(c: Conversations, m: Messages, gone: set<Id>, part: set<Id>)
    requires MessagesLinked(c, m) && part <= gone
    ensures MessagesLinked(c, ForgetParents(m, gone)) && MessagesLinked(c, ForgetParents(m, gone) - part)
  {}

  lemma ForksDetached(p: Projects, c: Conversations, gone: set<Id>, part: set<Id>)
    requires ConversationsLinked(p, c) && part <= gone
    ensures ConversationsLinked(p, DetachForks(c, gone)) && ConversationsLinked(p, DetachForks(c, gone) - part)
  {}

  lemma MessagesOutlive(c: Conversations, m: Messages, cutoff: Stamp, part: set<Id>)
    requires MessagesLinked(c, m) && part <= DueConversations(c, cutoff)
    ensures var gone := DueMessages(c, m, cutoff);
            MessagesLinked(DetachForks(c, DueConversations(c, cutoff)), ForgetParents(m, gone) - gone)
            && MessagesLinked(DetachForks(c, DueConversations(c, cutoff)) - part, ForgetParents(m, gone) - gone)
  {}

  lemma ProjectsOutlive(p: Projects, c: Conversations, g: Grants, cutoff: Stamp, part: set<Id>)
    requires ProjectsLinked(p) && ConversationsLinked(p, c) && ProjectStamps(p) && ConversationStamps(p, c) && GrantsLinked(p, g)
    requires part <= DueProjects(p, cutoff)
    ensures var gone := DueConversations(c, cutoff);
            ConversationsLinked(p - part, DetachForks(c, gone) - gone)
            && GrantsLinked(p, DropGrants(g, DueProjects(p, cutoff))) && GrantsLinked(p - part, DropGrants(g, DueProjects(p, cutoff)))
  {
    DueClosed(p, c, cutoff);
    ForksDetached(p, c, DueConversations(c, cutoff), DueConversations(c, cutoff));
    forall project: Id, user: Id | (project, user) in DropGrants(g, DueProjects(p, cutoff)) ensures project in p - part {
      assert (project, user).0 == project;
    }
  }

  datatype Rows = Rows(projects: Projects, conversations: Conversations, messages: Messages, grants: Grants, files: Files)

  /** No foreign key of these tables dangles. */
  ghost predicate LinkedRows(r: Rows) {
    ProjectsLinked(r.projects) && ConversationsLinked(r.projects, r.conversations) && MessagesLinked(r.conversations, r.messages)
    && GrantsLinked(r.projects, r.grants) && FilesLinked(r.messages, r.files) && RefsOk(r.files)
  }

  /** A moment of a purge: any part of a batched statement done, so many projects deleted,
      or so many candidates examined. */
  datatype Moment =
    | Unlinking(part: set<Id>)
    | ForgettingParents(part: set<Id>)
    | ForgettingTargets(part: set<Id>)
    | DeletingMessages(part: set<Id>)
    | Detaching(part: set<Id>)
    | DeletingConversations(part: set<Id>)
    | Revoking(part: set<Id>)
    | DeletingProjects(n: nat)
    | Collecting(examined: seq<Id>)

  /** The tables at a moment; `order` is how the projects to go were listed. */
  function At(d: Database, cutoff: Stamp, order: seq<Id>, moment: Moment): Rows
    requires moment.DeletingProjects? ==> moment.n <= |DeepestFirst(d.projects, order)|
  {
    var (p, c, m, g, f) := (d.projects, d.conversations, d.messages, d.grants, d.files);
    var (goneP, goneC, goneM) := (DueProjects(p, cutoff), DueConversations(c, cutoff), DueMessages(c, m, cutoff));
    var (f1, m1) := (UnlinkMessages(f, goneM), ForgetParents(m, goneM));
    var (f2, m2) := (ForgetTargets(f1, goneM), m1 - goneM);
    var c1 := DetachForks(c, goneC);
    match moment
    case Unlinking(part) => Rows(p, c, m, g, UnlinkMessages(f, part))
    case ForgettingParents(part) => Rows(p, c, ForgetParents(m, part), g, f1)
    case ForgettingTargets(part) => Rows(p, c, m1, g, ForgetTargets(f1, part))
    case DeletingMessages(part) => Rows(p, c, m1 - part, g, f2)
    case Detaching(part) => Rows(p, DetachForks(c, part), m2, g, f2)
    case DeletingConversations(part) => Rows(p, c1 - part, m2, g, f2)
    case Revoking(part) => Rows(p, c1 - goneC, m2, DropGrants(g, part), f2)
    case DeletingProjects(n) => Rows(p - IdSet(DeepestFirst(p, order)[..n]), c1 - goneC, m2, DropGrants(g, goneP), f2)
    case Collecting(examined) => Rows(p - goneP, c1 - goneC, m2, DropGrants(g, goneP), Collected(f2, examined))
  }

  /** The part of a batched statement is a part of what the statement is about. */
  ghost predicate PartOf(d: Database, cutoff: Stamp, moment: Moment) {
    match moment
    case Unlinking(part) => part <= DueMessages(d.conversations, d.messages, cutoff)
    case ForgettingParents(part) => part <= DueMessages(d.conversations, d.messages, cutoff)
    case ForgettingTargets(part) => part <= DueMessages(d.conversations, d.messages, cutoff)
    case DeletingMessages(part) => part <= DueMessages(d.conversations, d.messages, cutoff)
    case Detaching(part) => part <= DueConversations(d.conversations, cutoff)
    case DeletingConversations(part) => part <= DueConversations(d.conversations, cutoff)
    case Revoking(part) => part <= DueProjects(d.projects, cutoff)
    case _ => true
  }

  lemma UnlinkedPart(m: Messages, f: Files, gone: set<Id>, part: set<Id>)
    requires FilesLinked(m, f) && RefsOk(f) && part <= gone
    ensures FilesLinked(m, UnlinkMessages(f, part)) && RefsOk(UnlinkMessages(f, part))
    ensures var g := UnlinkMessages(f, gone); FilesLinked(ForgetParents(m, part), g) && RefsOk(g)
    ensures var g := ForgetTargets(UnlinkMessages(f, gone), part); FilesLinked(ForgetParents(m, gone), g) && RefsOk(g)
  {}

  lemma ForgottenPart(c: Conversations, m: Messages, part: set<Id>)
    requires MessagesLinked(c, m)
    ensures MessagesLinked(c, ForgetParents(m, part))
  {}

  lemma DetachedPart(p: Projects, c: Conversations, m: Messages, part: set<Id>)
    requires ConversationsLinked(p, c) && MessagesLinked(c, m)
    ensures ConversationsLinked(p, DetachForks(c, part)) && MessagesLinked(DetachForks(c, part), m)
  {}

  lemma RevokedPart(p: Projects, g: Grants, part: set<Id>)
    requires GrantsLinked(p, g)
    ensures GrantsLinked(p, DropGrants(g, part))
  {
    forall project: Id, user: Id | (project, user) in DropGrants(g, part) ensures project in p {
      assert (project, user) in g;
    }
  }

  /** While messages, links and staged uploads go. */
  lemma MessagesGo(d: Database, sha: Bytes -> Digest, cutoff: Stamp, order: seq<Id>, moment: Moment)
    requires Inv(d, sha) && PartOf(d, cutoff, moment)
    requires moment.Unlinking? || moment.ForgettingParents? || moment.ForgettingTargets? || moment.DeletingMessages?
    ensures LinkedRows(At(d, cutoff, order, moment))
  {
    hide ProjectsLinked, ConversationsLinked, MessagesLinked, GrantsLinked, FilesLinked, RefsOk, ProjectStamps, ConversationStamps,
         Acyclic, ProjectNames, ConversationNames, ColumnsOk, Mirrored, MessageStamps, SequencesUnique, UnlinkMessages, ForgetTargets,
         ForgetParents, DueMessages;
    var gone := DueMessages(d.conversations, d.messages, cutoff);
    UnlinkedPart(d.messages, d.files, gone, moment.part);
    ReleasedLinked(d.messages, d.files, gone, moment.part);
    ForgottenPart(d.conversations, d.messages, moment.part);
    ParentsForgotten(d.conversations, d.messages, gone, moment.part);
  }

  /** While forks let go of their origin, conversations and memberships go. */
  lemma ConversationsGo(d: Database, sha: Bytes -> Digest, cutoff: Stamp, order: seq<Id>, moment: Moment)
    requires Inv(d, sha) && PartOf(d, cutoff, moment)
    requires moment.Detaching? || moment.DeletingConversations? || moment.Revoking?
    ensures LinkedRows(At(d, cutoff, order, moment))
  {
    hide ProjectsLinked, ConversationsLinked, MessagesLinked, GrantsLinked, FilesLinked, RefsOk, ProjectStamps, ConversationStamps,
         Acyclic, ProjectNames, ConversationNames, ColumnsOk, Mirrored, MessageStamps, SequencesUnique, UnlinkMessages, ForgetTargets,
         ForgetParents, DueMessages, DueConversations, DetachForks, DropGrants;
    var (p, c, m) := (d.projects, d.conversations, d.messages);
    var (goneC, goneM) := (DueConversations(c, cutoff), DueMessages(c, m, cutoff));
    ReleasedLinked(m, d.files, goneM, goneM);
    ParentsForgotten(c, m, goneM, goneM);
    ForksDetached(p, c, goneC, goneC);
    MessagesOutlive(c, m, cutoff, goneC);
    match moment
    case Detaching(part) => DetachedPart(p, c, ForgetParents(m, goneM) - goneM, part);
    case DeletingConversations(part) =>
      ForksDetached(p, c, goneC, part);
      MessagesOutlive(c, m, cutoff, part);
    case Revoking(part) => RevokedPart(p, d.grants, part);
  }

  /** While projects go, deepest first, and then attachments. */
  lemma ProjectsGo(d: Database, sha: Bytes -> Digest, cutoff: Stamp, order: seq<Id>, moment: Moment)
    requires Inv(d, sha) && IdSet(order) == DueProjects(d.projects, cutoff)
    requires (moment.DeletingProjects? && moment.n <= |DeepestFirst(d.projects, order)| && Countable(d.projects, IdSet(order)))
             || moment.Collecting?
    ensures LinkedRows(At(d, cutoff, order, moment))
  {
    hide ProjectsLinked, ConversationsLinked, MessagesLinked, GrantsLinked, FilesLinked, RefsOk, ProjectStamps, ConversationStamps,
         Acyclic, ProjectNames, ConversationNames, ColumnsOk, Mirrored, MessageStamps, SequencesUnique, Countable, DueMessages,
         DueConversations, UnlinkMessages, ForgetTargets, ForgetParents, DetachForks, DropGrants, Collected;
    var (p, c, m) := (d.projects, d.conversations, d.messages);
    var (goneP, goneC, goneM) := (DueProjects(p, cutoff), DueConversations(c, cutoff), DueMessages(c, m, cutoff));
    ReleasedLinked(m, d.files, goneM, goneM);
    MessagesOutlive(c, m, cutoff, goneC);
    DueClosed(p, c, cutoff);
    match moment
    case DeletingProjects(n) =>
      DeepestFirstSafe(p, order);
      ProjectsOutlive(p, c, d.grants, cutoff, IdSet(DeepestFirst(p, order)[..n]));
    case Collecting(examined) =>
      DueProjectsGone(p, c, cutoff);
      ProjectsOutlive(p, c, d.grants, cutoff, goneP);
      CandidatesLinked(m, d.files, sha, goneM, examined);
  }

  lemma DueProjectsGone(p: Projects, c: Conversations, cutoff: Stamp)
    requires ProjectsLinked(p) && ConversationsLinked(p, c) && ProjectStamps(p) && ConversationStamps(p, c)
    ensures ProjectsLinked(p - DueProjects(p, cutoff))
  {
    DueClosed(p, c, cutoff);
  }

  /** No reference dangles at any moment of a purge, but perhaps between two project deletes:
      there it never does if the levels of all purged parents are counted in full, as
      `DeepestFirstExact` requires, so always in a shallow forest. */
  lemma PurgeNeverDangles(d: Database, sha: Bytes -> Digest, cutoff: Stamp, order: seq<Id>, moment: Moment)
    requires Inv(d, sha) && PartOf(d, cutoff, moment) && IdSet(order) == DueProjects(d.projects, cutoff)
    requires moment.DeletingProjects? ==> moment.n <= |DeepestFirst(d.projects, order)|
    ensures !moment.DeletingProjects? || Countable(d.projects, IdSet(order)) || Shallow(d.projects)
            ==> LinkedRows(At(d, cutoff, order, moment))
  {
    hide LinkedRows, At, DeepestFirst, Countable, Shallow;
    match moment
    case DeletingProjects(n) =>
      if Shallow(d.projects) { ShallowIsCountable(d.projects, IdSet(order)); }
      if Countable(d.projects, IdSet(order)) { ProjectsGo(d, sha, cutoff, order, moment); }
    case Collecting(_) => ProjectsGo(d, sha, cutoff, order, moment);
    case Detaching(_) => ConversationsGo(d, sha, cutoff, order, moment);
    case DeletingConversations(_) => ConversationsGo(d, sha, cutoff, order, moment);
    case Revoking(_) => ConversationsGo(d, sha, cutoff, order, moment);
    case _ => MessagesGo(d, sha, cutoff, order, moment);
  }

  lemma CandidatesLinked(m: Messages, f: Files, sha: Bytes -> Digest, gone: set<Id>, candidates: seq<Id>)
    requires FileRules(m, f, sha)
    ensures var g := Collected(ForgetTargets(UnlinkMessages(f, gone), gone), candidates);
            FilesOk(g, sha) && FilesLinked(ForgetParents(m, gone) - gone, g)
  {
    var f2 := ForgetTargets(UnlinkMessages(f, gone), gone);
    ReleaseMessagesKeeps(f, sha, gone);
    assert f2 == ReleaseMessages(f, gone);
    ReleasedLinked(m, f, gone, gone);
    CollectedExactly(f2, sha, candidates);
    CollectedIs(f2, candidates);
  }

  // -------------------------------------------------------------- invariants

  lemma {:induction false} ChainOutlives(p: Projects, gone: set<Id>, id: Id, n: nat)
    requires Chain(p, id, n) && id !in gone && ClosedDown(p, gone)
    ensures Chain(p - gone, id, n)
    decreases n
  {
    if p[id].parent.Some? { ChainOutlives(p, gone, p[id].parent.value, n - 1); }
  }

  lemma PurgedTree(p: Projects, c: Conversations, cutoff: Stamp)
    requires TreeRules(p, c)
    ensures var goneP, goneC := DueProjects(p, cutoff), DueConversations(c, cutoff);
            TreeRules(p - goneP, DetachForks(c, goneC) - goneC)
  {
    hide ProjectNames, ConversationNames, ColumnsOk, Acyclic, ProjectsLinked, ConversationsLinked, ProjectStamps, ConversationStamps,
         DueProjects, DueConversations, DetachForks;
    PurgedLinks(p, c, cutoff);
    PurgedAcyclic(p, c, cutoff);
    PurgedProjectNames(p, cutoff);
    PurgedConversationNames(p, c, cutoff);
    PurgedColumns(p, c, cutoff);
  }

  lemma PurgedLinks(p: Projects, c: Conversations, cutoff: Stamp)
    requires ProjectsLinked(p) && ConversationsLinked(p, c) && ProjectStamps(p) && ConversationStamps(p, c)
    ensures var q, e := p - DueProjects(p, cutoff), DetachForks(c, DueConversations(c, cutoff)) - DueConversations(c, cutoff);
            ProjectsLinked(q) && ConversationsLinked(q, e) && ProjectStamps(q) && ConversationStamps(q, e)
  {
    DueClosed(p, c, cutoff);
    ForksDetached(p, c, DueConversations(c, cutoff), DueConversations(c, cutoff));
  }

  lemma PurgedAcyclic(p: Projects, c: Conversations, cutoff: Stamp)
    requires ProjectsLinked(p) && ConversationsLinked(p, c) && ProjectStamps(p) && ConversationStamps(p, c) && Acyclic(p)
    ensures Acyclic(p - DueProjects(p, cutoff))
  {
    var q := p - DueProjects(p, cutoff);
    DueClosed(p, c, cutoff);
    forall id | id in q ensures Rooted(q, id) {
      assert Rooted(p, id);
      var n: nat :| Chain(p, id, n);
      ChainOutlives(p, DueProjects(p, cutoff), id, n);
    }
  }

  lemma PurgedColumns(p: Projects, c: Conversations, cutoff: Stamp)
    requires ColumnsOk(p, c)
    ensures ColumnsOk(p - DueProjects(p, cutoff), DetachForks(c, DueConversations(c, cutoff)) - DueConversations(c, cutoff))
  {
    hide NameFits;
  }


  lemma PurgedProjectNames(p: Projects, cutoff: Stamp)
    requires ProjectsLinked(p) && ProjectStamps(p) && ProjectNames(p)
    ensures ProjectNames(p - DueProjects(p, cutoff))
  {
    var q := p - DueProjects(p, cutoff);
    forall a, b | a in q && b in q && a != b && SameLevel(q, a, b) ensures Fold(q[a].name) != Fold(q[b].name) {
      if p[a].parent.Some? { assert NotLater(p[a].deletedAt, p[p[a].parent.value].deletedAt); }
      assert SameLevel(p, a, b);
    }
  }

  lemma PurgedConversationNames(p: Projects, c: Conversations, cutoff: Stamp)
    requires ConversationsLinked(p, c) && ConversationStamps(p, c) && ConversationNames(p, c)
    ensures var gone := DueConversations(c, cutoff);
            ConversationNames(p - DueProjects(p, cutoff), DetachForks(c, gone) - gone)
  {
    var q, gone := p - DueProjects(p, cutoff), DueConversations(c, cutoff);
    var e := DetachForks(c, gone) - gone;
    forall a, b | a in e && b in e && a != b && TogetherIn(q, e, a, b) ensures Fold(e[a].name) != Fold(e[b].name) {
      assert NotLater(c[a].deletedAt, p[c[a].project].deletedAt);
      assert TogetherIn(p, c, a, b);
    }
  }

  lemma PurgedTranscripts(c: Conversations, m: Messages, mi: MessageIndex, grown: set<Id>, cutoff: Stamp)
    requires MessageRules(c, m) && MessagesMirrored(c, m, mi, grown)
    ensures var e, gone := DetachForks(c, DueConversations(c, cutoff)) - DueConversations(c, cutoff), DueMessages(c, m, cutoff);
            var n := ForgetParents(m, gone) - gone;
            MessageRules(e, n) && MessagesMirrored(e, n, mi - gone, grown)
  {
    var e, gone := DetachForks(c, DueConversations(c, cutoff)) - DueConversations(c, cutoff), DueMessages(c, m, cutoff);
    var n := ForgetParents(m, gone) - gone;
    MessagesOutlive(c, m, cutoff, DueConversations(c, cutoff));
    PurgedSequences(m, gone);
    forall id ensures Mirrors(e, n, mi - gone, grown, id) {
      assert Mirrors(c, m, mi, grown, id);
    }
  }

  lemma PurgedSequences(m: Messages, gone: set<Id>)
    requires SequencesUnique(m)
    ensures SequencesUnique(ForgetParents(m, gone) - gone)
  {}

  lemma PurgedEntries(p: Projects, c: Conversations, cutoff: Stamp)
    ensures ProjectEntries(p - DueProjects(p, cutoff)) == ProjectEntries(p) - DueProjects(p, cutoff)
    ensures var gone := DueConversations(c, cutoff);
            ConversationEntries(DetachForks(c, gone) - gone) == ConversationEntries(c) - gone
  {}

  /** A purge keeps every invariant, whatever the cutoff. */
  lemma PurgeKeeps(d: Database, sha: Bytes -> Digest, cutoff: Stamp)
    requires Inv(d, sha)
    ensures Inv(PurgeEffect(d, cutoff), sha)
  {
    PurgedTree(d.projects, d.conversations, cutoff);
    PurgedTranscripts(d.conversations, d.messages, d.messageIndex, d.grown, cutoff);
    PurgedEntries(d.projects, d.conversations, cutoff);
    ProjectsOutlive(d.projects, d.conversations, d.grants, cutoff, DueProjects(d.projects, cutoff));
    var gone := DueMessages(d.conversations, d.messages, cutoff);
    var order := SomeListing(Candidates(d.files, gone));
    CandidatesLinked(d.messages, d.files, sha, gone, order);
    CollectedIs(ForgetTargets(UnlinkMessages(d.files, gone), gone), order);
  }

  // ------------------------------------------------------------------ result

  /** A purge decides by the stamp alone, in every table: a row goes exactly when it was
      deleted no later than the cutoff. So no live row goes, and rows deleted together go
      or stay together. */
  lemma PurgedMessages(m: Messages, gone: set<Id>)
    ensures var n := ForgetParents(m, gone) - gone;
            (forall id :: id in n <==> id in m && id !in gone) && forall id :: id in n ==> n[id] == m[id].(parentMessage := n[id].parentMessage)
  {}

  lemma PurgeExactly(d: Database, cutoff: Stamp)
    requires MessagesLinked(d.conversations, d.messages) && MessageStamps(d.conversations, d.messages)
    ensures var e := PurgeEffect(d, cutoff);
            (forall id :: id in e.projects <==> id in d.projects && !Due(d.projects[id].deletedAt, cutoff))
            && (forall id :: id in e.conversations <==> id in d.conversations && !Due(d.conversations[id].deletedAt, cutoff))
            && (forall id :: id in e.messages <==> id in d.messages && !Due(d.messages[id].deletedAt, cutoff))
            && (forall id :: id in e.projects ==> e.projects[id] == d.projects[id])
            && (forall id :: id in e.messages ==>
                  e.messages[id] == d.messages[id].(parentMessage := e.messages[id].parentMessage))
  {
    hide ForgetParents, UnlinkMessages, ForgetTargets, DropGrants, Destroyed, DueMessages;
    PurgedMessages(d.messages, DueMessages(d.conversations, d.messages, cutoff));
    forall id ensures id in DueMessages(d.conversations, d.messages, cutoff) <==> id in d.messages && Due(d.messages[id].deletedAt, cutoff) {
      DueMessagesExact(d.conversations, d.messages, cutoff, id);
    }
  }

  /** A fork keeps its origin while the origin exists; when the origin is purged, the fork
      keeps where it came from, as an external session if it had none. */
  lemma PurgeKeepsProvenance(d: Database, cutoff: Stamp, id: Id)
    requires id in PurgeEffect(d, cutoff).conversations && ConversationsLinked(d.projects, d.conversations)
    ensures id in d.conversations
    ensures var before, after := d.conversations[id], PurgeEffect(d, cutoff).conversations[id];
            if before.forkedFrom.Some? && before.forkedFrom.value !in PurgeEffect(d, cutoff).conversations
            then after.forkedFrom == None && (before.forkedSession.Some? ==> after.forkedSession == before.forkedSession)
                 && (before.forkedSession == None ==> after.forkedSession == before.forkedFrom)
                 && after == before.(forkedFrom := None, forkedSession := after.forkedSession)
            else after == before
  {}

  /** Exactly the attachments that lost their last link in this purge are destroyed; every
      other one keeps its row and its bytes. */
  lemma PurgeCollectsExactly(d: Database, sha: Bytes -> Digest, cutoff: Stamp, a: Id)
    requires Inv(d, sha)
    ensures var e := PurgeEffect(d, cutoff);
            (a in e.files.attachments <==> a in d.files.attachments && (Referenced(d.files, a) ==> Referenced(e.files, a)))
            && (a in e.files.attachments ==>
                  e.files.attachments[a] == d.files.attachments[a] && Content(e.files, a) == Content(d.files, a))
  {
    var gone := DueMessages(d.conversations, d.messages, cutoff);
    var f2 := ForgetTargets(UnlinkMessages(d.files, gone), gone);
    var order := SomeListing(Candidates(d.files, gone));
    ReleaseMessagesKeeps(d.files, sha, gone);
    assert f2 == ReleaseMessages(d.files, gone);
    CollectedExactly(f2, sha, order);
    CollectedIs(f2, order);
    LostItsLinks(d.files, gone, a);
    if a in d.files.attachments { JoinedDependsOn(d.files.chunks, f2.chunks, a, a, d.files.attachments[a].chunkCount); }
  }

  lemma LostItsLinks(f: Files, gone: set<Id>, a: Id)
    ensures var g := ForgetTargets(UnlinkMessages(f, gone), gone);
            (a in Candidates(f, gone) && !Referenced(g, a)) <==> (Referenced(f, a) && !Referenced(g, a))
  {
    var g := ForgetTargets(UnlinkMessages(f, gone), gone);
    if Referenced(f, a) && !Referenced(g, a) {
      var key :| key in f.links && key.1 == a;
      assert key in g.links <==> key.0 !in gone;
      assert key in f.links && key.0 in gone;
    }
  }

  // --------------------------------------------------------------------- job

  /** `DELETE FROM projects WHERE id = ?`, one row after another. */
  method DeleteProjectRows(db: Handle, order: seq<Id>)
    modifies db
    ensures db.tables == old(db.tables).(projects := old(db.tables.projects) - IdSet(order))
  {
    ghost var p := db.tables.projects;
    IdSetBounds(order);
    assert p - {} == p;
    for i := 0 to |order|
      invariant db.tables == old(db.tables).(projects := p - IdSet(order[..i]))
    {
      IdSetGrows(order, i);
      db.tables := db.tables.(projects := db.tables.projects - {order[i]});
      assert db.tables.projects == p - IdSet(order[..i + 1]);
    }
  }

  /** The last loop: each candidate is checked again, then its bytes are deleted. */
  method CollectOrphans(db: Handle, candidates: seq<Id>)
    modifies db
    ensures db.tables == old(db.tables).(files := Collected(old(db.tables.files), candidates))
  {
    ghost var f := db.tables.files;
    for i := 0 to |candidates|
      invariant db.tables == old(db.tables).(files := Collected(f, candidates[..i]))
    {
      assert candidates[..i + 1][..i] == candidates[..i];
      if !Referenced(db.tables.files, candidates[i]) {
        db.tables := db.tables.(files := DeleteBytes(db.tables.files, candidates[i]));
      }
    }
    assert candidates[..|candidates|] == candidates;
  }

  /** Messages and what hangs on them, in the order the source deletes. */
  method PurgeMessages(db: Handle, messages: set<Id>)
    modifies db
    ensures db.tables == old(db.tables).(messages := ForgetParents(old(db.tables.messages), messages) - messages,
                                         files := ForgetTargets(UnlinkMessages(old(db.tables.files), messages), messages))
  {
    db.tables := db.tables.(files := UnlinkMessages(db.tables.files, messages));
    db.tables := db.tables.(messages := ForgetParents(db.tables.messages, messages));
    db.tables := db.tables.(files := ForgetTargets(db.tables.files, messages));
    db.tables := db.tables.(messages := db.tables.messages - messages);
  }

  /** Conversations after their forks let go, then memberships, then projects deepest first. */
  method PurgeTree(db: Handle, projects: set<Id>, conversations: set<Id>)
    modifies db
    ensures var d := old(db.tables);
            db.tables == d.(conversations := DetachForks(d.conversations, conversations) - conversations,
                            grants := DropGrants(d.grants, projects), projects := d.projects - projects)
  {
    db.tables := db.tables.(conversations := DetachForks(db.tables.conversations, conversations));
    db.tables := db.tables.(conversations := db.tables.conversations - conversations);
    db.tables := db.tables.(grants := DropGrants(db.tables.grants, projects));
    var order := Listing(projects);
    order := SortDeepestFirst(db.tables.projects, order);
    assert IdSet(order) == projects;
    DeleteProjectRows(db, order);
  }

  function PurgeVerdict(actor: Actor, retention: int): Outcome {
    if actor.role != Admin then Failed(PermissionDenied)
    else if retention < MIN_RETENTION_DAYS then Failed(Validation)
    else Done
  }

  /** `purge_deleted` */
  method PurgeDeleted(db: Handle, actor: Actor, retention: int, dryRun: bool, now: Stamp) returns (r: Outcome)
    modifies db
    ensures r == PurgeVerdict(actor, retention)
    ensures db.tables == if r == Done && !dryRun then PurgeEffect(old(db.tables), now - retention * DAY_MS) else old(db.tables)
  {
    hide DueProjects, DueConversations, DueMessages, Candidates, UnlinkMessages, ForgetTargets, ForgetParents, DetachForks,
         DropGrants, Collected, Destroyed;
    if actor.role != Admin {
      return Failed(PermissionDenied);
    }
    if retention < MIN_RETENTION_DAYS {
      return Failed(Validation);
    }
    r := Done;
    if dryRun {
      return;
    }
    var cutoff := now - retention * DAY_MS;
    var projects, conversations := DueProjects(db.tables.projects, cutoff), DueConversations(db.tables.conversations, cutoff);
    var messages := DueMessages(db.tables.conversations, db.tables.messages, cutoff);
    var order := Listing(messages);
    DropMessages(db, order);
    order := Listing(conversations);
    DropConversations(db, order);
    order := Listing(projects);
    DropProjects(db, order);
    var candidates := Listing(Candidates(db.tables.files, messages));
    PurgeMessages(db, messages);
    PurgeTree(db, projects, conversations);
    ghost var f := db.tables.files;
    CollectOrphans(db, candidates);
    CollectedIs(f, candidates);
  }
}
