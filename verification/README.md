# The shared workspace, modelled and proved

A Dafny model of the shared-workspace service under `tree_agent/server`, of the client
loops that read and upload through it, and of the in-memory tree it replaced
(`tree_agent/store.py`), with proofs about every run of it.

## How it is built

| file | what it models |
|---|---|
| `Base`, `Tables`, `Schema` | identifiers, rows, the meaning of queries, one committed state of the database, and the invariant `Schema.Inv` |
| `Ids`, `Levels` | sort keys; `place` and the plain list it refines |
| `Naming`, `Search`, `Indexing` | generated names; text preparation; the index tables and their maintenance |
| `Access` | the upward permission walk, the one-pass walk, the forest `tree()` returns |
| `Files`, `AttachmentJobs` | attachment tables; the upload, commit and detach jobs |
| `ProjectJobs`, `ConversationJobs`, `ForkJob`, `MessageJobs` | the jobs of the tree and message services |
| `Maintenance`, `Purge` | the sweep; the permanent purge |
| `Runs`, `Deep` | every run of all jobs; databases on which the depth guards let something go wrong |
| `Ordering`, `OrderRuns` | what jobs, and runs of them, do to the order of a level |
| `Restoration`, `Provenance`, `Transfers` | over runs: a deletion and its restoration with anything in between; where a fork came from; uploads and downloads |
| `Idempotency`, `Writer` | the two protocols, as interleaved steps |
| `Paging` | reading a transcript page by page while others write |
| `Workspace` | the mutable tree of the desktop application |

A table is a map from row id to row. The shared database handle is the class
`Schema.Handle`, whose `tables` field every job changes statement by statement. For each
job there is a *verdict* (the first check that fails, in the order of the code) and an
*effect* (the tables afterwards). The job's method is proved to return its verdict and to
leave its effect, or the old tables when it fails; a job that fails after it has written
sets the tables back, as the writer's rollback does. What the effects mean is proved as
lemmas: each keeps `Schema.Inv`, `Runs` carries that over every run, and `Ordering`,
`Restoration`, `Purge`, `ForkJob` and `Transfers` say what changed and what did not. Where
several transactions make one activity (a download, an upload, a walk through pages), its
method is given the states that its transactions find, and a lemma says what holds when
these are states of a run.

`Schema.Inv` says: no reference dangles; the project graph is acyclic; below a deleted row
everything is deleted, no later than it; names of siblings deleted together, and of live
siblings, differ; names pass the schema's length check; sort keys are well-formed; sequence
numbers and external event ids are unique per conversation; `project_fts` and
`conversation_fts` mirror the live rows exactly; every `message_fts` row is a live message
tagged with its conversation's current project, and every live, non-blank message of an
indexed role has its current text there unless `append_delta` lengthened it since; and the
attachment tables are consistent (staged sizes, one attachment per hash and length, every
attachment whole and at most 20 MiB long, display orders unique per message).

Several proofs begin with `hide`, which keeps the verifier from unfolding definitions the
proof does not need. It adds no assumption.

## Premises

Each is a hypothesis of the lemmas that need it, never built into an operation.

- New ids are new (`Runs.Premise`); where a row may be gone before its id is met again, that
  no id is given out twice (`Transfers.NeverReused`).
- A deletion reads a clock later than every deletion stamp written so far (`Schema.ClockPast`).
- The ordered queries return what they say (`Levels.Lists`, `MessageJobs.Transcript`); rows
  with equal keys may come in either order.
- Nothing in the code bounds the depth of the tree. Where a recursive walk has to be
  complete, the exact condition is stated (`Runs.WalksComplete`); that no chain is longer
  than `MAX_DEPTH` (`Tables.Shallow`) implies it.
- Names are compared under one case fold, the one of SQLite's `NOCASE` for ASCII letters.
- SHA-256 is a parameter. That it does not collide on two contents is assumed only where
  deduplication relies on it (`Files.NoCollision`).

## Where the code does less than it says

- `rank_between` promises to raise only when the gap cannot be filled. It can raise although
  keys fit; `Ids.ExhaustionExact` says exactly when, `Ids.SpuriousExhaustion` gives a pair.
- A key can reach 49 characters, not 48: `Ids.LongestExact` says exactly when,
  `Ids.KeyOfFortyNine` gives a pair.
- Past `MAX_DEPTH` levels a deletion leaves live rows under deleted ones
  (`ProjectJobs.DeleteProjectExact`, `Deep.DeepDeletion`), a move can close a cycle
  (`ProjectJobs.MoveProjectExact`, `Deep.DeepMove`), and the two permission walks part
  (`Access.WalksAgree`, `Access.WalksPart`).
- `_deepest_first` promises children before parents. Its depth count stops at 500, so past
  that two levels can tie (`Maintenance.DeepestFirstExact`, `Deep.DeepPurge`).
- A fork of a conversation with a long name fails: the schema checks the length of the
  generated name (`ForkJob.ForkFitsExactly`, `ForkJob.LongNameNoFork`).
- For mutual exclusion it is not enough that `produce` ends before its reservation expires:
  a release has to run in time, too (`Idempotency.ReleaseExact`,
  `Idempotency.LateReleaseRunsTwice`). A late store does no harm to it, but can replace a
  result that was replayed already (`Idempotency.ResultLastsExactly`,
  `Idempotency.LateStoreReplaces`).
- A retry does not always get the reply the original got: `run` replays the body, not the
  status, so a rejection that was raised to its first caller is returned to the next as an
  ordinary result. `Idempotency.RetryAgreesExactly` says exactly when the replies agree,
  `Idempotency.RejectionReplays` gives a history.
- A caller of `submit` that passed the check before `close` and is queued after the
  sentinel is never answered (`Writer.QueuedInTime`, `Writer.StrandedInRun`).
- Only `OperationalError` is rolled back at COMMIT. Anything else raised there leaves the
  transaction open, and every later job fails at BEGIN (`Writer.LeftOpenExactly`,
  `Writer.StuckInRun`, `Writer.StuckForEver`).

## Model

| member | source | states |
|---|---|---|
| Ids.RankAfter | tree_agent/server/ids.py:71-91 | the in-place increment with its carry loop computes `After`, the specification the next lemmas are about |
| Ids.AfterIsNext | tree_agent/server/ids.py:71-91 | an appended key is well-formed, strictly above the last one and of the same width unless every digit was at the top; it raises exactly at a full key of 48 or more characters |
| Ids.AfterIsImmediate | tree_agent/server/ids.py:71-91 | among well-formed keys of one width nothing lies between a key and its successor |
| Ids.RankBefore | tree_agent/server/ids.py:94-107 | the in-place decrement with its borrow loop computes `Before` |
| Ids.BeforeIsPrevious | tree_agent/server/ids.py:94-107 | the predecessor is well-formed, strictly below and as wide; it raises exactly at the least key of its width |
| Ids.StepsInvert | tree_agent/server/ids.py:71-107 | successor and predecessor undo each other while the width is kept |
| Ids.FirstLevelCapacity | tree_agent/server/ids.py:31-36 | from `FIRST_RANK` exactly 7,269,003 appends stay four characters wide |
| Ids.RankBetween | tree_agent/server/ids.py:110-145 | on any keys, well-formed or not, the digit loop with its final order check computes `Between` |
| Ids.BetweenIsBetween | tree_agent/server/ids.py:110-145 | for well-formed keys in order a returned key lies strictly between them, ends in no zero and is at most one character longer than the longer one, so the final order check never fires; it raises exactly when no position short of 48 has room, which needs a neighbour of 48 or more characters |
| Ids.LongestExact | tree_agent/server/ids.py:125-135 | a returned key has 49 characters exactly when the only room is a zero digit at the last position |
| Ids.KeyOfFortyNine | tree_agent/server/ids.py:125-135 | two keys whose gap is filled by one of 49 characters |
| Ids.ExhaustionExact | tree_agent/server/ids.py:110-145 | it raises although a key of at most 48 characters fits exactly when no position has room and the neighbours part early |
| Ids.SpuriousExhaustion | tree_agent/server/ids.py:113-117 | two keys for which it raises although a short key lies between them |
| Ids.Resequence | tree_agent/server/ids.py:148-167 | the width, value and digit loops compute `Spread`, and nothing for a count of zero or less |
| Ids.SpreadIncreases | tree_agent/server/ids.py:148-167 | the keys are strictly increasing in list order for every count, the last-digit fix-up included |
| Ids.SpreadHasRoom | tree_agent/server/ids.py:148-167 | below 48 characters there is room before the first key, after the last and between every two |
| Ids.WidthExact | tree_agent/server/ids.py:152-154 | a renumbered level is at most `w` characters wide exactly when `w` is at least four and leaves four slots per key |
| Levels.PlaceAmongTies | tree_agent/server/services/tree.py:46-67 | among siblings sorted with ties the new key lands strictly between its two neighbours or the whole level is renumbered; the level stays sorted |
| Levels.PlaceKeepsStrict | tree_agent/server/services/tree.py:46-67 | strictly increasing, well-formed keys stay so |
| Levels.QueryReadsList | tree_agent/server/repositories/projects.py:86-97 | on a strict level the ordered query can return only the list the level stands for |
| Levels.StepRefines | tree_agent/server/services/tree.py:46-67 | insertion, move and removal on the keyed table are insertion at the clamped index, move and removal on the plain list |
| Levels.RunRefines | tree_agent/server/services/tree.py:46-67 | over every run from an empty level, renumberings included, sorting by key gives the plain list |
| Levels.RunKeepsKeysShort | tree_agent/server/ids.py:31-36 | over every run short of a quarter of 62^48 operations no key is longer than 49 characters |
| Ordering.CreateProjectInserts | tree_agent/server/services/tree.py:177-211 | creating a project is an insertion into its level; no other level changes |
| Ordering.MoveProjectMoves | tree_agent/server/services/tree.py:276-296 | moving is a move within the level, or a removal from one and an insertion into the other |
| Ordering.DeleteProjectRemoves | tree_agent/server/services/tree.py:300-317 | deleting removes the project from its level and nothing else from it |
| Ordering.CreatedAtIndex | tree_agent/server/services/tree.py:177-211 | the level stands for the old list with the new project inserted at the clamped index |
| Ordering.MovedToIndex | tree_agent/server/services/tree.py:276-296 | the level stands for the old list with the project taken out and put in at the clamped index |
| Ordering.CreateConversationInserts | tree_agent/server/services/tree.py:388-426 | creating a conversation is an insertion into its level |
| Ordering.MoveConversationMoves | tree_agent/server/services/tree.py:509-541 | the same for conversations |
| Ordering.ForkInserts | tree_agent/server/services/tree.py:796-816 | a fork is inserted just below its source, after exactly the forks of the same source that directly follow it |
| OrderRuns.RunKeepsOrder | tree_agent/server/services/tree.py:46-67 | over every run without a restoration the live projects below a parent, sorted by key, are the list the calls so far describe, and no key is longer than 49 characters |
| OrderRuns.RunKeepsTalkOrder | tree_agent/server/services/tree.py:46-67 | the same for the conversations of a project, forks included |
| Naming.UniqueName | tree_agent/store.py:517-525 | the counting loop ends and returns the base or the first numbered name no sibling has |
| Naming.FewTries | tree_agent/store.py:517-538 | an injective family of candidates gives a free name within one more try than there are taken names |
| Naming.ForkName | tree_agent/store.py:529-538 | the fork loop ends and returns the first fork name no sibling has |
| Naming.ForkDoesNotStack | tree_agent/store.py:527-538 | a fork of a trimmed name carries exactly one fork suffix if the name carried at most one |
| Naming.ForkCountExact | tree_agent/store.py:527-538 | how many suffixes a fork of any name carries |
| Access.FindPermission | tree_agent/server/services/access.py:61-87 | the climbing loop returns the nearest live membership on the way up, capped by the account role |
| Access.VisibleProjects | tree_agent/server/services/access.py:90-119 | on any table the stack loop maps each row that is live up to its root to the permission the downward pass gives it, and maps no other row, but for administrators |
| Access.WalksAgree | tree_agent/server/services/access.py:61-119 | the one pass and the climb agree on a live project exactly for administrators, within the depth guard, one row past it unless only the top row holds a membership of the caller, and deeper if none of the nearest 200 rows holds one |
| Access.WalksMatch | tree_agent/server/services/access.py:61-119 | in a shallow forest the pass maps a project to a permission exactly when the climb returns it |
| Access.WalksPart | tree_agent/server/services/access.py:61-119 | a line of projects on which they disagree |
| Access.BuildForest | tree_agent/server/services/tree.py:77-111 | the linking loop hangs each visible row under its visible parent, or among the roots |
| Access.HangConversations | tree_agent/server/services/tree.py:96-101 | the conversation loop hangs each live conversation under its project if that is visible |
| Access.TalksShownOnce | tree_agent/server/services/tree.py:96-101 | a live conversation is listed under its own project, once, and nowhere else |
| Access.ForestShowsOnce | tree_agent/server/services/tree.py:77-111 | every visible project occurs in the forest exactly once: no list holds a project twice, and one list, under its visible parent or at the top, holds this one |
| Access.SurfacedMeansHidden | tree_agent/server/services/tree.py:77-111 | at whatever depth, a visible project surfaces as a root of the forest the one pass makes exactly when the climb lets the caller not read its parent |
| Access.ReadsDownExactly | tree_agent/server/services/access.py:61-119 | whoever sees a project sees what is live just below it, in the forest and to the climb; for each the exact exception past the depth guard |
| Tables.SubtreeClosed | tree_agent/server/repositories/projects.py:119-131 | a walk that is not cut off takes every kept child of a row it took |
| Tables.ReparentExact | tree_agent/server/services/tree.py:258-275 | giving a project a new parent keeps the graph acyclic exactly when that parent is not at or beneath it |
| Tables.FringeInWithin | tree_agent/server/repositories/projects.py:119-131 | a recursive walk takes every row it finds at most so many links below its root |
| Tables.DepthWithin | tree_agent/server/repositories/projects.py:119-131 | and no other row |
| Deep.DeepMove | tree_agent/server/services/tree.py:266-272 | on a line of 202 projects with every invariant a move passes all checks and closes a cycle |
| Deep.DeepDeletion | tree_agent/server/repositories/projects.py:223-257 | on the same line a deletion passes all checks and leaves a live project under a deleted one |
| Deep.DeepPurge | tree_agent/server/services/maintenance.py:271-285 | on a line of 502 deleted projects a purge can delete a parent before its child |
| ProjectJobs.CreateProject | tree_agent/server/services/tree.py:163-211 | the job's checks in order and its whole new state |
| ProjectJobs.CreateProjectKeeps | tree_agent/server/services/tree.py:163-211 | creating a project keeps every invariant |
| ProjectJobs.Clean | tree_agent/server/services/tree.py:39-43 | a name it accepts passes the length check of the schema |
| ProjectJobs.UpdateProject | tree_agent/server/services/tree.py:213-240 | checks in order, one revision step, row and index entry rewritten |
| ProjectJobs.UpdateProjectKeeps | tree_agent/server/services/tree.py:213-240 | renaming keeps names unique and the index exact |
| ProjectJobs.MoveProject | tree_agent/server/services/tree.py:249-298 | a revision conflict found after siblings were renumbered leaves the old tables |
| ProjectJobs.MoveProjectExact | tree_agent/server/services/tree.py:249-298 | a move that passes its checks keeps every invariant exactly when the new parent is nowhere beneath the project; in a shallow forest always |
| ProjectJobs.DeleteProject | tree_agent/server/services/tree.py:300-317 | the three selects, three updates and three index loops leave the marked batch and an index without it |
| ProjectJobs.DeleteProjectExact | tree_agent/server/repositories/projects.py:223-257 | a deletion keeps every invariant exactly when no live project lies more than `MAX_DEPTH` links below |
| ProjectJobs.RestoreProject | tree_agent/server/services/tree.py:319-339 | checks in order; the exactly stamped rows below come back and are indexed again |
| ProjectJobs.RestoreProjectKeeps | tree_agent/server/repositories/projects.py:260-322 | a restoration that passes its checks keeps every invariant at any depth, names below the root included though only the root's is checked |
| ProjectJobs.Grant | tree_agent/server/services/tree.py:348-368 | only an owner grants, and only to a known user; one membership changes |
| Indexing.ReindexConversation | tree_agent/server/repositories/search.py:124-140 | the delete-then-insert loop over the live messages leaves exactly `Reindexed` |
| Indexing.ReindexMirrors | tree_agent/server/repositories/search.py:124-140 | reindexing makes the index right for those conversations whatever it said before, and touches no other message's entry |
| ConversationJobs.CreateConversation | tree_agent/server/services/tree.py:388-426 | a typed name that is taken fails, the placeholder is numbered; the whole new state |
| ConversationJobs.CreateConversationKeeps | tree_agent/server/services/tree.py:388-426 | creating a conversation keeps every invariant |
| ConversationJobs.PlaceholderFits | tree_agent/server/services/tree.py:405-407 | so does a numbered placeholder, short of 10^196 conversations in the project |
| ConversationJobs.UpdateConversationKeeps | tree_agent/server/services/tree.py:428-465 | renaming, and the update that leaves the index alone, keep every invariant |
| ConversationJobs.SetRunnerKeeps | tree_agent/server/services/tree.py:467-498 | recording a runner's thread or session keeps every invariant |
| ConversationJobs.MoveConversation | tree_agent/server/services/tree.py:500-543 | checks in order; row, index entry and every live message's index entry move to the new project |
| ConversationJobs.MoveConversationKeeps | tree_agent/server/services/tree.py:534-537 | after a move every index row of the conversation names its new project; every invariant is kept |
| ConversationJobs.DeleteConversationKeeps | tree_agent/server/services/tree.py:589-605 | deleting a conversation with its live messages keeps every invariant |
| ConversationJobs.RestoreConversationKeeps | tree_agent/server/services/tree.py:607-628 | restoring a conversation with the messages of its exact stamp keeps every invariant |
| ConversationJobs.ResetConversation | tree_agent/server/services/tree.py:630-659 | every live message is stamped and dropped from the index, the session and fork origin are forgotten |
| ConversationJobs.ResetKeeps | tree_agent/server/services/tree.py:630-659 | a reset keeps every invariant |
| MessageJobs.ResetEmpties | tree_agent/server/services/tree.py:630-659 | a reset empties the transcript |
| ForkJob.ForkPosition | tree_agent/server/services/tree.py:796-816 | the position loop computes `ForkSlot` |
| ForkJob.ForkConversation | tree_agent/server/services/tree.py:545-587 | name, position, row, transcript copy, note and index, statement by statement; a name the schema refuses leaves the old tables |
| ForkJob.ForkFitsExactly | tree_agent/server/migrations/0001_initial.sql:87 | a generated fork name passes the length check exactly when base, space and suffix have at most 200 characters |
| ForkJob.LongNameNoFork | tree_agent/server/migrations/0001_initial.sql:87 | two jobs that succeed lead from the empty database to one with every invariant in which the fork of a conversation with a legal name is refused |
| ForkJob.ForkKeeps | tree_agent/server/services/tree.py:545-587 | a fork keeps every invariant: a free name, numbers of its own, an exact index |
| ForkJob.ForkCopies | tree_agent/server/services/tree.py:719-756 | the fork's transcript is the source's live transcript in order, numbered from 1, role and text kept, then one note; no other message changes |
| ForkJob.ForkShares | tree_agent/server/services/tree.py:754-759 | each copy has its original's attachments in the same display order; no other link changes |
| ForkJob.CopiesDiffer | tree_agent/server/services/tree.py:754-759 | the copied links have different display orders per message, so no insert of a fork is refused for one that is taken |
| MessageJobs.FindNextSequenceNo | tree_agent/server/repositories/messages.py:48-54 | one more than the highest number of the conversation, deleted rows included, or 1 |
| MessageJobs.Append | tree_agent/server/services/messages.py:139-220 | a retried event returns the row it made and changes nothing; a failed attachment check leaves the old tables; otherwise the whole new state |
| MessageJobs.AppendTwice | tree_agent/server/services/messages.py:169-176 | resending an event, with any other contents, adds nothing |
| MessageJobs.AppendExtends | tree_agent/server/services/messages.py:178-212 | a new message is the last of its transcript, with its role, text and exactly the attachments named, in the order named; no other message changes |
| MessageJobs.AppendKeeps | tree_agent/server/services/messages.py:139-220 | an append keeps every invariant |
| MessageJobs.LinkAllDiffers | tree_agent/server/services/messages.py:188-211 | the attachments of a new message get different display orders, repeated ids included |
| MessageJobs.ReadableStays | tree_agent/server/services/messages.py:195-211 | linking a new message's own attachments opens no new way to read one |
| MessageJobs.AppendDeltaKeeps | tree_agent/server/services/messages.py:222-236 | streaming text keeps every invariant; the message counts as lengthened since its last indexing |
| MessageJobs.CompleteKeeps | tree_agent/server/services/messages.py:238-276 | completion indexes the final text of an indexed role and keeps every invariant |
| MessageJobs.CancelTurn | tree_agent/server/services/messages.py:354-392 | every open live message of the conversation is closed and one indexed note is appended |
| MessageJobs.CancelTurnKeeps | tree_agent/server/services/messages.py:354-392 | cancelling keeps every invariant |
| MessageJobs.CancelTurnExtends | tree_agent/server/services/messages.py:361-389 | after a cancelled turn nothing of the transcript is open and the note is its last row |
| MessageJobs.DeleteMessageKeeps | tree_agent/server/services/messages.py:394-407 | deleting a message keeps every invariant |
| MessageJobs.DeleteMessageShortens | tree_agent/server/services/messages.py:394-407 | the message leaves its transcript, the others keep their order |
| Files.PutChunkKeeps | tree_agent/server/repositories/attachments.py:78-98 | sending or re-sending a chunk keeps the received size equal to the staged bytes, and every other staging rule |
| Files.TotalForcesFullChunks | tree_agent/server/services/attachments.py:122-157 | the per-chunk bound and the total force every chunk but the last to be full |
| Files.CreateFromUploadKeeps | tree_agent/server/repositories/attachments.py:172-196 | publishing a complete upload yields an attachment with exactly the staged bytes |
| Files.DedupeIsSound | tree_agent/server/repositories/attachments.py:159-163 | equal hash and length mean equal bytes, if the hash does not collide on them |
| Files.CollectedExactly | tree_agent/server/services/maintenance.py:161-165 | of the candidates exactly those without a link are destroyed; what stays keeps its bytes |
| Files.ExpireStaleKeeps | tree_agent/server/repositories/attachments.py:141-153 | expiring uploads keeps every staging rule |
| AttachmentJobs.Commit | tree_agent/server/services/attachments.py:130-196 | the checks in order, publication or reuse, link, closing; a late failure leaves the old tables |
| AttachmentJobs.CommitKeeps | tree_agent/server/services/attachments.py:130-196 | a commit keeps every invariant |
| AttachmentJobs.NextOrderFree | tree_agent/server/repositories/attachments.py:258-272 | the display order a commit links under is not taken |
| AttachmentJobs.PublishSound | tree_agent/server/services/attachments.py:146-176 | the published attachment has the declared length, the hash of the staged bytes, and those bytes |
| Transfers.Stream | tree_agent/server/services/attachments.py:228-257 | access check, then one query per chunk, each in a state of its own: refused, lost, or the chunks read one after another |
| Transfers.DownloadExact | tree_agent/server/services/attachments.py:237-257 | in a run, with anything between its reads, a download finds every chunk exactly when the attachment is still there at the last one, and then yields its bytes |
| Transfers.CommitSucceedsExactly | tree_agent/server/services/attachments.py:130-196 | over a run, once every block was accepted, in any order and with anything in between, `commit` never fails for the bytes: only if the upload is no longer open or its message no longer to be written to |
| Transfers.UploadRoundTrip | tree_agent/server/services/attachments.py:112-196 | over a run, whatever else happens: if every chunk accepted for an upload carried its block of the data, a commit that succeeds publishes the data, linked to its message |
| Transfers.TransferRoundTrip | tree_agent/server/services/attachments.py:112-257 | uploading and then downloading, each over as much of a run as it takes, gives the same data, or a purge in between took the attachment |
| Transfers.UploadWhole | tree_agent/server/services/attachments.py:198-225 | initiate, blocks and commit, each in a state of its own, stop at the first that fails |
| Transfers.WholeSucceedsExactly | tree_agent/server/services/attachments.py:198-225 | in a run they all succeed exactly when the upload may begin, is open at each later request, and its message may be written to at the last |
| Transfers.SendBlocks | tree_agent/client_api.py:556-566 | the block loop sends every block of the file once, in order, until one is refused |
| Maintenance.SweepKeeps | tree_agent/server/services/maintenance.py:38-54 | a sweep keeps every invariant |
| Maintenance.SortDeepestFirst | tree_agent/server/services/maintenance.py:271-285 | the depth loop and the stable sort compute `DeepestFirst` |
| Maintenance.DeepestFirstSafe | tree_agent/server/services/maintenance.py:271-285 | deleting in that order never leaves a dangling parent link, after any number of deletions, while no level was cut short |
| Maintenance.DeepestFirstExact | tree_agent/server/services/maintenance.py:271-285 | it is safe for every listing order exactly when no purged parent is 500 or more levels down |
| Maintenance.DueMessagesExact | tree_agent/server/services/maintenance.py:233-252 | the messages taken are exactly those deleted no later than the cutoff |
| Purge.PurgeDeleted | tree_agent/server/services/maintenance.py:86-173 | admin and retention checks, the dry run, and every delete and null-out in order |
| Purge.PurgeKeeps | tree_agent/server/services/maintenance.py:86-173 | a purge at any cutoff keeps every invariant |
| Purge.PurgeNeverDangles | tree_agent/server/services/maintenance.py:134-165 | no reference dangles at any moment: after any part of a batched delete, null-out or detach of links, messages, forks, conversations or memberships, between two candidates, and between two project deletes if the levels of purged parents are counted in full, so always in a shallow forest |
| Purge.PurgeExactly | tree_agent/server/services/maintenance.py:103-121 | in every table a row goes exactly when it was deleted no later than the cutoff, so no live row goes and a deletion batch goes whole or stays whole |
| Purge.PurgeKeepsProvenance | tree_agent/server/services/maintenance.py:219-230 | a fork whose origin is purged keeps where it came from; every other surviving conversation is unchanged |
| Provenance.ForkKeepsOrigin | tree_agent/server/services/maintenance.py:219-230 | over every run a fork keeps its origin until it is reset: as a reference, or as a session once that was purged |
| Purge.PurgeCollectsExactly | tree_agent/server/services/maintenance.py:144-165 | exactly the attachments that lost their last link are destroyed; every other one keeps its row and bytes |
| Runs.StepKeeps | tree_agent/server/services/tree.py:163-659 | a job keeps every invariant, whoever calls it and whatever it is asked, exactly when its recursive walk missed nothing |
| Runs.RunKeeps | tree_agent/server/db.py:91-184 | in a run from a state with every invariant, so in one from the empty database, every state has every invariant exactly when every walk was complete |
| Runs.ShallowRunKeeps | tree_agent/server/db.py:91-184 | as long as no chain is longer than `MAX_DEPTH` they all are |
| Runs.StepKeepsBytes | tree_agent/server/services/attachments.py:237-257 | no job alters an attachment, and only a purge takes one away |
| Runs.RunKeepsBytes | tree_agent/server/services/attachments.py:237-257 | while an attachment exists its bytes are the same in every state of a run |
| Restoration.BatchOutlivesRun | tree_agent/server/repositories/projects.py:223-322 | from a deletion on, over every run without a purge or a restoration of that project, no row of its batch changes and no other row gets its stamp |
| Restoration.OnlyTheRootRestores | tree_agent/server/services/tree.py:320-337 | no other restoration reaches into the batch: the parent there is deleted, too |
| Restoration.RestorationUndoesDeletion | tree_agent/server/repositories/projects.py:260-322 | a restoration that succeeds brings back exactly the batch, every row as it was before the deletion up to revision and `deleted_by`, and changes no other row |
| Restoration.TalkOutlivesRun | tree_agent/server/services/tree.py:589-605 | the same for a deleted conversation and its messages, whatever happens to the projects above |
| Restoration.TalkRestorationUndoesDeletion | tree_agent/server/services/tree.py:589-628 | a restoration of a conversation that succeeds brings back it and exactly the messages deleted with it, as they were up to revision and `deleted_by`, and changes no other row |
| Idempotency.Store.Run | tree_agent/server/services/idempotency.py:46-84 | `run` with anything done to the table in between: its transactions are the protocol's steps and its caller gets the reply they lead to |
| Idempotency.OneProduceInFlight | tree_agent/server/services/idempotency.py:46-84 | under every interleaving in which `produce` ends and a release runs in time under a user and key, however late a store and whatever happens under other keys, at most one `produce` is in flight under it |
| Idempotency.ReleaseExact | tree_agent/server/services/idempotency.py:103-111 | a release, early or late, is harmless exactly when it does not delete the reservation of another request in time |
| Idempotency.StartsAlone | tree_agent/server/services/idempotency.py:57-71 | `produce` starts only when no unexpired record exists, so never for a mismatched fingerprint, and no other request in time holds the key |
| Idempotency.ResultLastsExactly | tree_agent/server/services/idempotency.py:46-84 | a stored result lasts until it expires, under every continuation, exactly when no request is left that may still store another one |
| Idempotency.StoredResultReplays | tree_agent/server/services/idempotency.py:46-84 | if outcomes under a key were recorded in time until a result was stored there, every later request before it expires is answered from it or refused for its fingerprint, and `produce` does not run |
| Idempotency.RetryAgreesExactly | tree_agent/server/services/idempotency.py:46-84 | over a run, with anything in between: a retry gets the reply the original got exactly when that was a result; a rejection raised to the original it gets as an ordinary result |
| Idempotency.RejectionReplays | tree_agent/server/services/idempotency.py:54-55 | a history in which a rejection is replayed as a result |
| Idempotency.LateReleaseRunsTwice | tree_agent/server/services/idempotency.py:103-111 | a history in which a late release lets two run at once |
| Idempotency.LateStoreReplaces | tree_agent/server/services/idempotency.py:86-101 | a history in which a late store replaces a stored result |
| Writer.Connection.Run | tree_agent/server/db.py:133-162 | the retry loop with begin, rollback and commit computes `Served`, on a connection that may have been left inside a transaction |
| Writer.AppliedOnceOrNever | tree_agent/server/db.py:133-162 | a job that returned was applied exactly once; any other left no trace |
| Writer.ReturnsExactly | tree_agent/server/db.py:133-162 | a job that raises nothing returns exactly when some attempt gets through and every earlier one lost the lock |
| Writer.LeftOpenExactly | tree_agent/server/db.py:149-157 | it leaves the transaction open exactly when COMMIT raises something other than `OperationalError` |
| Writer.StuckInRun | tree_agent/server/db.py:149-157 | a run from a new queue that leaves the transaction open |
| Writer.StuckForEver | tree_agent/server/db.py:133-162 | from then on every job served fails and the committed state stays |
| Writer.CommittedIsFold | tree_agent/server/db.py:115-184 | at every moment of every run the committed state is the fold, in queue order, of exactly the jobs whose `submit` returned |
| Writer.AnswerableExactly | tree_agent/server/db.py:115-184 | a waiting caller can still be answered exactly when the thread has not stopped and no sentinel stands ahead of its job; with its job at position i, in i + 1 turns |
| Writer.QueuedInTime | tree_agent/server/db.py:164-197 | at every moment of every run after it was queued, a caller has its answer or can still get it exactly when it was queued before the sentinel |
| Writer.StrandedInRun | tree_agent/server/db.py:164-197 | a run from a new queue that strands its only caller |
| Paging.ListPage | tree_agent/server/repositories/messages.py:75-102 | a page is the first rows after one cursor and before the other in number order: all of them, or a full page with nothing skipped |
| Paging.LastPageExactly | tree_agent/server/repositories/messages.py:75-102 | a page is also the last one before its upper cursor exactly when no more rows than fit on it lie between the cursors |
| Paging.IterMessages | tree_agent/client_api.py:416-430 | whatever changes between pages, numbers strictly rise, each row was live when read, and a walk that ends has yielded every message live throughout it |
| Paging.YieldedOnce | tree_agent/client_api.py:416-430 | such a message is yielded exactly once |
| Paging.FixedTable | tree_agent/client_api.py:416-430 | on a table nobody changes the walk ends and yields the whole live transcript in order |
| Paging.RunKeepsNumber | tree_agent/server/repositories/messages.py:48-54 | over a run a message keeps its conversation and its number while it exists |
| Paging.WalkOverRun | tree_agent/client_api.py:416-430 | a walk through a run, with anything between its pages, that ends has yielded every message that was live all the while exactly once |
| Workspace.Tree.Walk | tree_agent/store.py:398-407 | the walk yields every node exactly once, with its owner, in depth-first order |
| Workspace.Tree.Ancestors | tree_agent/store.py:427-436 | the climb ends and yields exactly the owners above a node, nearest first |
| Workspace.Tree.Add | tree_agent/store.py:494-515 | a new node goes last in the list of a project, or for a project at the top; refused otherwise |
| Workspace.Tree.FreshName | tree_agent/store.py:517-525 | the base if no child of the project has it, else the first numbered base that none has |
| Workspace.Tree.Move | tree_agent/store.py:594-624 | accepted exactly when legal; then the same nodes, one list each, no cycle, conversations never at the top; otherwise nothing changes |
| Workspace.MoveKeepsForest | tree_agent/store.py:594-624 | a legal move keeps the forest |
| Workspace.MoveWithin | tree_agent/store.py:615-623 | in its own list the node ends up just before the element that was at `index`, the shift included |
| Workspace.MoveAcross | tree_agent/store.py:615-623 | in another list, likewise |
| Workspace.OthersKeepOrder | tree_agent/store.py:615-623 | the other siblings keep their order |
| Workspace.Tree.Delete | tree_agent/store.py:586-592 | exactly the node and what lies beneath it leave the tree |
| Workspace.Tree.Fork | tree_agent/store.py:540-578 | refused unless a conversation that has run; otherwise a sibling with a free name and the transcript so far, below the source and the forks of its thread |
| Workspace.Tree.FreshForkName | tree_agent/store.py:529-538 | the first fork name that no sibling has |

## Left out

- Ids.ExhaustionExact: keys of more than 48 characters that would fit are not counted as fitting, because the code never returns one but after a zero digit.
- OrderRuns.RunKeepsOrder: excludes restorations, because a restored row brings back a key that may tie with a newer sibling's; `Levels.PlaceAmongTies` says what `place` does then.
- Idempotency.OneProduceInFlight: assumes that under its key `produce` ends and a release runs before the reservation expires, because without it the claim is false (`Idempotency.LateReleaseRunsTwice`).
- Access.FindPermission: does not model `include_deleted`, which nothing passes.
- ProjectJobs.UpdateProject: of the settings only the prompt, which is indexed; not the check for unknown fields.
- ConversationJobs.CreateConversation: leaves out the agent and the model and the check of the agent.
- MessageJobs.CancelTurn: leaves out the cancelling of open tool calls.
- Maintenance.SweepKeeps: the upload part of the sweep; expired replay records are a step of `Idempotency`, sessions are not modelled.
- Purge.PurgeDeleted: leaves out tool calls and replay records; a batched statement is one statement here, every part of it in `Purge.PurgeNeverDangles`.
- Naming.ForkDoesNotStack: the suffix pattern is read with ASCII digits only, and a name ending in a line break right after a suffix is not treated as carrying it.
- Case folding beyond ASCII, and the other white space characters `str.strip` removes.
- Settings columns, expansion state, authors, agents, models and timestamps other than deletion stamps; settings inheritance and path strings.
- Access.BuildForest: leaves out the order `_sort_tree` gives the forest at the end, by key and then name.
- Tool calls, token usage, metadata and execution records.
- Users, sessions and password hashing: the actor is given, and whether a user exists is a parameter of `grant`.
- SQLite itself: each statement has its set-of-rows meaning, a failed COMMIT has no effect, and one that raises anything but `OperationalError` leaves its transaction open (after some errors SQLite ends it by itself; then the connection is not stuck). Of the schema's constraints on what is modelled, the length check on names can fail and is part of the verdicts; primary keys and value lists are the types of the tables; every other one is part of `Schema.Inv`.
- Full-text tokenising, match syntax and ranking; `build_match` and `summarise`.
- The importers that pass explicit sequence numbers, parents or whole attachments.
- `Database.write` with `wrap=False`, migrations and backup.
- The HTTP layer, the user interface, and the file-system side of uploads and downloads.
- Marking a project as expanded when something is put into it, and saving the workspace file after each change.
