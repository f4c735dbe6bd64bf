/** Every run of the service: one job after another, each on the state the one before left
  (the writer queue makes it so). */
module Runs {
  import opened Base
  import opened Levels
  import opened Tables
  import opened Files
  import opened Search
  import opened Schema
  import opened Indexing
  import opened ProjectJobs
  import opened ConversationJobs
  import opened MessageJobs
  import opened ForkJob
  import opened AttachmentJobs
  import opened Maintenance
  import opened Purge

  // -------------------------------------------------------------- operations

  /** What the caller asks for, with what the environment supplies: new ids, the clock and
      what the ordered queries return. */
  datatype ProjectOp =
    | CreateProject(parent: Option<Id>, name: string, index: Option<int>, prompt: string, id: Id, listing: seq<Entry>)
    | UpdateProject(id: Id, expected: Option<nat>, rename: Option<string>, text: Option<string>)
    | MoveProject(id: Id, expected: Option<nat>, parent: Option<Id>, index: Option<int>, listing: seq<Entry>)
    | DeleteProject(id: Id, revision: nat, now: Stamp)
    | RestoreProject(id: Id)
    | Grant(id: Id, user: Id, permission: Permission, known: bool)
    | Revoke(id: Id, user: Id)

  datatype ConversationOp =
    | CreateConversation(project: Id, name: string, index: Option<int>, id: Id, listing: seq<Entry>)
    | UpdateConversation(id: Id, expected: Option<nat>, rename: Option<string>)
    | SetRunner(id: Id, thread: Option<Id>, session: Option<Id>)
    | MoveConversation(id: Id, expected: Option<nat>, project: Id, index: Option<int>, listing: seq<Entry>)
    | ForkConversation(id: Id, listing: seq<Entry>, order: seq<Id>, ids: seq<Id>, target: Id)
    | DeleteConversation(id: Id, revision: nat, now: Stamp)
    | RestoreConversation(id: Id)
    | ResetConversation(id: Id, now: Stamp)

  datatype MessageOp =
    | Append(conversation: Id, role: Role, content: string, event: Option<Id>, attachments: seq<Id>, completed: bool, id: Id)
    | AppendDelta(id: Id, delta: string)
    | Complete(id: Id, text: Option<string>)
    | CancelTurn(conversation: Id, note: string, id: Id)
    | DeleteMessage(id: Id, now: Stamp)

  datatype FileOp =
    | Initiate(conversation: Id, size: int, digest: Option<Digest>, target: Option<Id>, id: Id, now: int)
    | SendChunk(upload: Id, number: int, payload: Bytes, now: int)
    | Commit(upload: Id, message: Option<Id>, id: Id, now: int)
    | Detach(id: Id, attachment: Id)
    | Sweep(now: int)

  datatype Op =
    | OnProject(project: ProjectOp)
    | OnConversation(conversation: ConversationOp)
    | OnMessage(message: MessageOp)
    | OnFile(file: FileOp)
    | Purge(retention: int, dryRun: bool, now: Stamp)

  /** The premises of one job: new ids are new, a deletion reads a clock past every stamp,
      and the ordered queries answer truly. */
  ghost predicate ProjectPremise(d: Database, op: ProjectOp) {
    match op
    case CreateProject(parent, name, index, prompt, id, listing) => id !in d.projects && Lists(ProjectLevel(d.projects, parent), listing)
    case MoveProject(id, expected, parent, index, listing) => Lists(ProjectLevel(d.projects, parent), listing)
    case DeleteProject(id, revision, now) => ClockPast(d, now)
    case _ => true
  }

  ghost predicate ConversationPremise(d: Database, op: ConversationOp) {
    match op
    case CreateConversation(project, name, index, id, listing) =>
      id !in d.conversations && Lists(ConversationLevel(d.conversations, project), listing)
    case MoveConversation(id, expected, project, index, listing) => Lists(ConversationLevel(d.conversations, project), listing)
    case ForkConversation(id, listing, order, ids, target) =>
      (id in d.conversations ==> Lists(ConversationLevel(d.conversations, d.conversations[id].project), listing))
      && target !in d.conversations && Transcript(d.messages, id, order) && NewIds(d.messages, ids) && |ids| == |order| + 1
    case DeleteConversation(id, revision, now) => ClockPast(d, now)
    case ResetConversation(id, now) => ClockPast(d, now)
    case _ => true
  }

  ghost predicate MessagePremise(d: Database, op: MessageOp) {
    match op
    case Append(conversation, role, content, event, attachments, completed, id) => id !in d.messages
    case CancelTurn(conversation, note, id) => id !in d.messages
    case DeleteMessage(id, now) => ClockPast(d, now)
    case _ => true
  }

  ghost predicate FilePremise(d: Database, op: FileOp) {
    match op
    case Initiate(conversation, size, digest, target, id, now) => id !in d.files.uploads
    case Commit(upload, message, id, now) => id !in d.files.attachments
    case _ => true
  }

  ghost predicate Premise(d: Database, op: Op) {
    match op
    case OnProject(o) => ProjectPremise(d, o)
    case OnConversation(o) => ConversationPremise(d, o)
    case OnMessage(o) => MessagePremise(d, o)
    case OnFile(o) => FilePremise(d, o)
    case Purge(retention, dryRun, now) => true
  }

  /** The recursive walk of a job missed nothing that mattered: a move that passes its cycle
      check goes nowhere beneath the moved project, and no live project lies too deep below
      a deleted one. Every other job is indifferent to depth. */
  ghost predicate WalksComplete(d: Database, actor: Actor, op: Op) {
    match op
    case OnProject(MoveProject(id, expected, parent, index, listing)) =>
      MoveProjectVerdict(d, actor, id, expected, parent) == Done && parent.Some? ==> !Beneath(d.projects, id, parent.value)
    case OnProject(DeleteProject(id, revision, now)) =>
      DeleteProjectVerdict(d, actor, id, revision) == Done ==> Bounded(d.projects, LiveProjects(d.projects), id)
    case _ => true
  }

  // ------------------------------------------------------------------- steps

  /** The committed state after a job: its effect if every check passed, else no change. */
  function ProjectStep(d: Database, actor: Actor, op: ProjectOp): Database {
    match op
    case CreateProject(parent, name, index, prompt, id, listing) =>
      if CreateProjectVerdict(d, actor, parent, name) == Done
      then CreateProjectEffect(d, actor, parent, Clean(name).value, index, prompt, id, listing) else d
    case UpdateProject(id, expected, rename, text) =>
      if UpdateProjectVerdict(d, actor, id, expected, rename) == Done
      then (UpdateProjectChecks(d, actor, id, expected, rename); UpdateProjectEffect(d, id, rename, text)) else d
    case MoveProject(id, expected, parent, index, listing) =>
      if MoveProjectVerdict(d, actor, id, expected, parent) == Done then MoveProjectEffect(d, id, parent, index, listing) else d
    case DeleteProject(id, revision, now) =>
      if DeleteProjectVerdict(d, actor, id, revision) == Done then DeleteProjectEffect(d, id, now, actor.id) else d
    case RestoreProject(id) =>
      if RestoreProjectVerdict(d, actor, id) == Done then RestoreProjectEffect(d, id) else d
    case Grant(id, user, permission, known) =>
      if GrantVerdict(d, actor, id, known) == Done then d.(grants := d.grants[(id, user) := permission]) else d
    case Revoke(id, user) =>
      if RevokeVerdict(d, actor, id) == Done then d.(grants := d.grants - {(id, user)}) else d
  }

  function ConversationStep(d: Database, actor: Actor, op: ConversationOp): Database {
    match op
    case CreateConversation(project, name, index, id, listing) =>
      if CreateConversationVerdict(d, actor, project, name) == Done then CreateConversationEffect(d, project, name, index, id, listing) else d
    case UpdateConversation(id, expected, rename) =>
      if UpdateConversationVerdict(d, actor, id, expected, rename) == Done then UpdateConversationEffect(d, id, rename) else d
    case SetRunner(id, thread, session) =>
      if SetRunnerVerdict(d, actor, id, thread, session) == Done then SetRunnerEffect(d, id, thread, session) else d
    case MoveConversation(id, expected, project, index, listing) =>
      if MoveConversationVerdict(d, actor, id, expected, project) == Done then MoveConversationEffect(d, id, project, index, listing) else d
    case ForkConversation(id, listing, order, ids, target) =>
      if ForkVerdict(d, actor, id) == Done && Stored(d.messages, order) && |ids| == |order| + 1
      then ForkEffect(d, id, listing, order, ids, target) else d
    case DeleteConversation(id, revision, now) =>
      if DeleteConversationVerdict(d, actor, id, revision) == Done then DeleteConversationEffect(d, id, now, actor.id) else d
    case RestoreConversation(id) =>
      if RestoreConversationVerdict(d, actor, id) == Done then RestoreConversationEffect(d, id) else d
    case ResetConversation(id, now) =>
      if ConversationGate(d, actor, id) == Done then ResetEffect(d, id, now) else d
  }

  ghost function MessageStep(d: Database, actor: Actor, op: MessageOp): Database {
    match op
    case Append(conversation, role, content, event, attachments, completed, id) =>
      if AppendVerdict(d, actor, conversation, event, attachments) == Done
      then AppendEffect(d, conversation, role, content, event, attachments, completed, id) else d
    case AppendDelta(id, delta) => if MessageGate(d, actor, id) == Done then AppendDeltaEffect(d, id, delta) else d
    case Complete(id, text) =>
      if MessageGate(d, actor, id) == Done then Write(d, id, CompletedRow(d.messages[id], text), d.files) else d
    case CancelTurn(conversation, note, id) =>
      if ConversationGate(d, actor, conversation) == Done then CancelTurnEffect(d, conversation, note, id) else d
    case DeleteMessage(id, now) => if MessageGate(d, actor, id) == Done then DeleteMessageEffect(d, id, now) else d
  }

  ghost function FileStep(d: Database, sha: Bytes -> Digest, actor: Actor, op: FileOp): Database {
    match op
    case Initiate(conversation, size, digest, target, id, now) =>
      if InitiateVerdict(d, actor, conversation, size, target) == Done
      then d.(files := CreateUpload(d.files, id, actor.id, target, size, digest, now)) else d
    case SendChunk(upload, number, payload, now) =>
      if PutChunkVerdict(d.files, actor, upload, number, payload, now) == Done
      then d.(files := PutChunk(d.files, upload, number, payload)) else d
    case Commit(upload, message, id, now) =>
      if CommitVerdict(d, sha, actor, upload, message, now) == Done
      then d.(files := CommitEffect(d.files, sha, upload, TargetOf(d.files, upload, message), id)) else d
    case Detach(id, attachment) =>
      if MessageGate(d, actor, id) == Done then d.(files := Unlink(d.files, id, attachment)) else d
    case Sweep(now) => d.(files := Swept(d.files, now))
  }

  ghost function Step(d: Database, sha: Bytes -> Digest, actor: Actor, op: Op): Database {
    match op
    case OnProject(o) => ProjectStep(d, actor, o)
    case OnConversation(o) => ConversationStep(d, actor, o)
    case OnMessage(o) => MessageStep(d, actor, o)
    case OnFile(o) => FileStep(d, sha, actor, o)
    case Purge(retention, dryRun, now) =>
      if PurgeVerdict(actor, retention) == Done && !dryRun then PurgeEffect(d, now - retention * DAY_MS) else d
  }

  // --------------------------------------------------------------- invariant

  lemma ProjectStepKeeps(d: Database, sha: Bytes -> Digest, actor: Actor, op: ProjectOp)
    requires Inv(d, sha) && ProjectPremise(d, op)
    ensures Inv(ProjectStep(d, actor, op), sha) <==> WalksComplete(d, actor, OnProject(op))
  {
    hide Inv, Beneath, Bounded, ClockPast, Lists;
    match op
    case CreateProject(parent, name, index, prompt, id, listing) =>
      if CreateProjectVerdict(d, actor, parent, name) == Done {
        CreateProjectKeeps(d, sha, actor, parent, Clean(name).value, index, prompt, id, listing);
      }
    case UpdateProject(id, expected, rename, text) =>
      if UpdateProjectVerdict(d, actor, id, expected, rename) == Done {
        UpdateProjectChecks(d, actor, id, expected, rename);
        UpdateProjectKeeps(d, sha, id, rename, text);
      }
    case MoveProject(id, expected, parent, index, listing) =>
      if MoveProjectVerdict(d, actor, id, expected, parent) == Done {
        MoveProjectExact(d, sha, actor, id, expected, parent, index, listing);
      }
    case DeleteProject(id, revision, now) =>
      if DeleteProjectVerdict(d, actor, id, revision) == Done {
        DeleteProjectExact(d, sha, id, now, actor.id);
      }
    case RestoreProject(id) =>
      if RestoreProjectVerdict(d, actor, id) == Done {
        RestoreProjectKeeps(d, sha, actor, id);
      }
    case Grant(id, user, permission, known) =>
      if GrantVerdict(d, actor, id, known) == Done { GrantsKeep(d, sha, id, user, permission); }
    case Revoke(id, user) =>
      if RevokeVerdict(d, actor, id) == Done { GrantsKeep(d, sha, id, user, Viewer); }
  }

  lemma ConversationStepKeeps(d: Database, sha: Bytes -> Digest, actor: Actor, op: ConversationOp)
    requires Inv(d, sha) && ConversationPremise(d, op)
    ensures Inv(ConversationStep(d, actor, op), sha)
  {
    hide Inv, ClockPast, Lists, Transcript, NewIds;
    match op
    case CreateConversation(project, name, index, id, listing) =>
      if CreateConversationVerdict(d, actor, project, name) == Done {
        CreateConversationKeeps(d, sha, actor, project, name, index, id, listing);
      }
    case UpdateConversation(id, expected, rename) =>
      if UpdateConversationVerdict(d, actor, id, expected, rename) == Done {
        UpdateConversationKeeps(d, sha, actor, id, expected, rename);
      }
    case SetRunner(id, thread, session) =>
      if SetRunnerVerdict(d, actor, id, thread, session) == Done {
        SetRunnerKeeps(d, sha, id, thread, session);
      }
    case MoveConversation(id, expected, project, index, listing) =>
      if MoveConversationVerdict(d, actor, id, expected, project) == Done {
        MoveConversationKeeps(d, sha, actor, id, expected, project, index, listing);
      }
    case ForkConversation(id, listing, order, ids, target) =>
      if ForkVerdict(d, actor, id) == Done && Stored(d.messages, order) && |ids| == |order| + 1 {
        ForkKeeps(d, sha, actor, id, listing, order, ids, target);
      }
    case DeleteConversation(id, revision, now) =>
      if DeleteConversationVerdict(d, actor, id, revision) == Done {
        DeleteConversationKeeps(d, sha, id, now, actor.id);
      }
    case RestoreConversation(id) =>
      if RestoreConversationVerdict(d, actor, id) == Done {
        RestoreConversationKeeps(d, sha, actor, id);
      }
    case ResetConversation(id, now) =>
      if ConversationGate(d, actor, id) == Done {
        ResetKeeps(d, sha, id, now);
      }
  }

  lemma MessageStepKeeps(d: Database, sha: Bytes -> Digest, actor: Actor, op: MessageOp)
    requires Inv(d, sha) && MessagePremise(d, op)
    ensures Inv(MessageStep(d, actor, op), sha)
  {
    hide Inv, ClockPast;
    match op
    case Append(conversation, role, content, event, attachments, completed, id) =>
      if AppendVerdict(d, actor, conversation, event, attachments) == Done {
        if !Repeated(d.messages, conversation, event) {
          AppendKeeps(d, sha, conversation, role, content, event, attachments, completed, id);
        }
      }
    case AppendDelta(id, delta) =>
      if MessageGate(d, actor, id) == Done {
        AppendDeltaKeeps(d, sha, id, delta);
      }
    case Complete(id, text) =>
      if MessageGate(d, actor, id) == Done {
        CompleteKeeps(d, sha, id, text);
      }
    case CancelTurn(conversation, note, id) =>
      if ConversationGate(d, actor, conversation) == Done {
        CancelTurnKeeps(d, sha, conversation, note, id);
      }
    case DeleteMessage(id, now) =>
      if MessageGate(d, actor, id) == Done {
        DeleteMessageKeeps(d, sha, id, now);
      }
  }


  lemma FileStepKeeps(d: Database, sha: Bytes -> Digest, actor: Actor, op: FileOp)
    requires Inv(d, sha) && FilePremise(d, op)
    ensures Inv(FileStep(d, sha, actor, op), sha)
  {
    hide Inv;
    match op
    case Initiate(conversation, size, digest, target, id, now) =>
      if InitiateVerdict(d, actor, conversation, size, target) == Done {
        InitiateKeeps(d, sha, id, actor.id, target, size, digest, now);
      }
    case SendChunk(upload, number, payload, now) =>
      if PutChunkVerdict(d.files, actor, upload, number, payload, now) == Done {
        PutChunkInv(d, sha, actor, upload, number, payload, now);
      }
    case Commit(upload, message, id, now) =>
      if CommitVerdict(d, sha, actor, upload, message, now) == Done {
        CommitKeeps(d, sha, actor, upload, message, id, now);
      }
    case Detach(id, attachment) =>
      if MessageGate(d, actor, id) == Done {
        DetachKeeps(d, sha, id, attachment);
      }
    case Sweep(now) =>
      SweepKeeps(d, sha, now);
  }

  /** A job keeps every invariant, whoever calls it and whatever it is asked, exactly when its
      walk is complete. */
  lemma StepKeeps(d: Database, sha: Bytes -> Digest, actor: Actor, op: Op)
    requires Inv(d, sha) && Premise(d, op)
    ensures Inv(Step(d, sha, actor, op), sha) <==> WalksComplete(d, actor, op)
  {
    hide Inv, Beneath, Bounded, MoveProjectVerdict, DeleteProjectVerdict, ProjectPremise, ConversationPremise, MessagePremise,
         FilePremise, ProjectStep, ConversationStep, MessageStep, FileStep;
    match op
    case OnProject(o) => ProjectStepKeeps(d, sha, actor, o);
    case OnConversation(o) => ConversationStepKeeps(d, sha, actor, o);
    case OnMessage(o) => MessageStepKeeps(d, sha, actor, o);
    case OnFile(o) => FileStepKeeps(d, sha, actor, o);
    case Purge(retention, dryRun, now) => PurgeKeeps(d, sha, now - retention * DAY_MS);
  }

  // -------------------------------------------------------------------- runs

  datatype Call = Call(actor: Actor, op: Op)

  /** `states[i + 1]` is what call `i` makes of `states[i]`. */
  ghost predicate Run(sha: Bytes -> Digest, states: seq<Database>, calls: seq<Call>) {
    |states| == |calls| + 1
    && forall i :: 0 <= i < |calls| ==>
         Premise(states[i], calls[i].op) && states[i + 1] == Step(states[i], sha, calls[i].actor, calls[i].op)
  }

  ghost predicate AllInv(states: seq<Database>, sha: Bytes -> Digest) { forall i :: 0 <= i < |states| ==> Inv(states[i], sha) }

  ghost predicate AllComplete(states: seq<Database>, calls: seq<Call>)
    requires |states| >= |calls|
  {
    forall i :: 0 <= i < |calls| ==> WalksComplete(states[i], calls[i].actor, calls[i].op)
  }

  /** In a run from a state with every invariant, such as the empty database (`EmptyInv`),
      every state has every invariant - references hold, the forest is acyclic, stamps shrink
      going down, live names differ, the index mirrors the tables, numbers are unique,
      attachments are whole - exactly when every walk was complete. */
  lemma {:induction false} RunKeeps(sha: Bytes -> Digest, states: seq<Database>, calls: seq<Call>)
    requires Run(sha, states, calls) && Inv(states[0], sha)
    ensures AllInv(states, sha) <==> AllComplete(states, calls)
    decreases |calls|
  {
    hide Inv, Premise, Step, WalksComplete;
    if calls != [] {
      var n := |calls| - 1;
      RunKeeps(sha, states[..n + 1], calls[..n]);
      if Inv(states[n], sha) { StepKeeps(states[n], sha, calls[n].actor, calls[n].op); }
      assert states == states[..n + 1] + [states[n + 1]] && calls == calls[..n] + [calls[n]];
      assert AllInv(states, sha) <==> AllInv(states[..n + 1], sha) && Inv(states[n + 1], sha);
      assert AllComplete(states, calls) <==> AllComplete(states[..n + 1], calls[..n]) && WalksComplete(states[n], calls[n].actor, calls[n].op);
    }
  }

  /** As long as no chain of projects is longer than `MAX_DEPTH`, every walk is complete. */
  lemma {:induction false} ShallowRunKeeps(sha: Bytes -> Digest, states: seq<Database>, calls: seq<Call>, n: nat)
    requires Run(sha, states, calls) && Inv(states[0], sha) && n < |states|
    requires forall i :: 0 <= i < n ==> Shallow(states[i].projects)
    ensures Inv(states[n], sha)
    decreases n
  {
    hide Inv, Premise, Step, WalksComplete, Shallow;
    if n > 0 {
      ShallowRunKeeps(sha, states, calls, n - 1);
      ShallowWalks(states[n - 1], sha, calls[n - 1].actor, calls[n - 1].op);
      StepKeeps(states[n - 1], sha, calls[n - 1].actor, calls[n - 1].op);
    }
  }

  lemma ShallowWalks(d: Database, sha: Bytes -> Digest, actor: Actor, op: Op)
    requires Inv(d, sha) && Shallow(d.projects)
    ensures WalksComplete(d, actor, op)
  {
    match op
    case OnProject(MoveProject(id, expected, parent, index, listing)) =>
      if MoveProjectVerdict(d, actor, id, expected, parent) == Done && parent.Some? {
        ShallowWalkComplete(d.projects, id, parent.value);
      }
    case OnProject(DeleteProject(id, revision, now)) =>
      if DeleteProjectVerdict(d, actor, id, revision) == Done {
        ShallowIsBounded(d.projects, LiveProjects(d.projects), id);
      }
    case _ =>
  }

  // ------------------------------------------------------- attachment bytes

  lemma ProjectStepFiles(d: Database, actor: Actor, op: ProjectOp)
    ensures ProjectStep(d, actor, op).files == d.files
  {}

  lemma ForkCopiesLinks(d: Database, source: Id, listing: seq<Entry>, order: seq<Id>, ids: seq<Id>, target: Id)
    requires source in d.conversations && |ids| == |order| + 1 && Stored(d.messages, order)
    ensures ForkEffect(d, source, listing, order, ids, target).files
            == d.files.(links := CopyAllLinks(d.files.links, order, ids, |order|))
  {
    hide Place, RekeyedIn, ForkedMessages, ForkRow, ForkPlacement, CopyAllLinks, LiveMessagesOf, ReindexedMessages, ReindexedConversations;
  }

  /** Outside the file jobs and the purge only links change. */
  lemma ConversationStepFiles(d: Database, actor: Actor, op: ConversationOp)
    ensures var f := ConversationStep(d, actor, op).files; f == d.files.(links := f.links)
  {
    hide Place, RekeyedIn, ForkEffect, LiveMessagesOf, ReindexedMessages, ReindexedConversations, MarkMessages, MarkConversations,
         StampedMessages, ConversationGate, Segment, UniqueConversationName;
    match op
    case ForkConversation(id, listing, order, ids, target) =>
      if ForkVerdict(d, actor, id) == Done && Stored(d.messages, order) && |ids| == |order| + 1 {
        ForkCopiesLinks(d, id, listing, order, ids, target);
      }
    case _ =>
  }

  lemma MessageStepFiles(d: Database, actor: Actor, op: MessageOp)
    ensures var f := MessageStep(d, actor, op).files; f == d.files.(links := f.links)
  {
    hide Segment, Blank, NextSequenceNo;
  }

  /** A commit adds an attachment under a new id or none; it alters no other. */
  lemma CommitAlters(f: Files, sha: Bytes -> Digest, u: Id, target: Option<Id>, a: Id, b: Id)
    requires u in f.uploads && a !in f.attachments && b in f.attachments
    ensures Unaltered(f, CommitEffect(f, sha, u, target, a), b)
  {}

  lemma FileStepBytes(d: Database, sha: Bytes -> Digest, actor: Actor, op: FileOp, a: Id)
    requires FilePremise(d, op) && a in d.files.attachments
    ensures Unaltered(d.files, FileStep(d, sha, actor, op).files, a)
  {
    hide CommitEffect;
    match op
    case Commit(upload, message, id, now) =>
      if CommitVerdict(d, sha, actor, upload, message, now) == Done {
        CommitAlters(d.files, sha, upload, TargetOf(d.files, upload, message), id, a);
      }
    case _ =>
  }

  lemma PurgeBytes(d: Database, cutoff: Stamp, a: Id)
    requires a in d.files.attachments && a in PurgeEffect(d, cutoff).files.attachments
    ensures Unaltered(d.files, PurgeEffect(d, cutoff).files, a)
  {}

  /** No job alters an attachment; only a purge can take one away. */
  lemma StepKeepsBytes(d: Database, sha: Bytes -> Digest, actor: Actor, op: Op, a: Id)
    requires Premise(d, op) && a in d.files.attachments
    ensures var e := Step(d, sha, actor, op);
            (a in e.files.attachments ==> Unaltered(d.files, e.files, a)) && (a !in e.files.attachments ==> op.Purge?)
  {
    hide ProjectPremise, ConversationPremise, MessagePremise, FilePremise, ProjectStep, ConversationStep, MessageStep, FileStep, PurgeEffect;
    match op
    case OnProject(o) => ProjectStepFiles(d, actor, o);
    case OnConversation(o) => ConversationStepFiles(d, actor, o);
    case OnMessage(o) => MessageStepFiles(d, actor, o);
    case OnFile(o) => FileStepBytes(d, sha, actor, o, a);
    case Purge(retention, dryRun, now) =>
      if a in PurgeEffect(d, now - retention * DAY_MS).files.attachments { PurgeBytes(d, now - retention * DAY_MS, a); }
  }

  /** While an attachment exists its bytes are the same in every state of a run: a download
      that reads one chunk per transaction never mixes two contents. */
  lemma {:induction false} RunKeepsBytes(sha: Bytes -> Digest, states: seq<Database>, calls: seq<Call>, i: nat, j: nat, a: Id)
    requires Run(sha, states, calls) && i <= j < |states|
    requires forall k :: i <= k <= j ==> a in states[k].files.attachments
    ensures Unaltered(states[i].files, states[j].files, a)
    decreases j - i
  {
    hide Premise, Step;
    if i < j {
      RunKeepsBytes(sha, states, calls, i, j - 1, a);
      StepKeepsBytes(states[j - 1], sha, calls[j - 1].actor, calls[j - 1].op, a);
    }
  }
}
