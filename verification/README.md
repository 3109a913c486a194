# Verification of Waypoint's storage core

Waypoint keeps users, workspaces, memberships, channels, threaded messages and direct messages in
PostgreSQL. Its Go services and its SQL schema maintain invariants together: row locks, foreign-key
locks and a partial unique index protect the single owner of a workspace, triggers keep a denormalised
reply counter, and delete cascades run through a graph of eight tables. This project models those parts
in Dafny and proves what holds in every run.

Check it with `dafny verify dfyconfig.toml`.

## How the model is organised

**Concurrent membership** (`Ownership*.dfy`). A transition system over users, workspaces and
memberships. Each service call is a READ COMMITTED transaction of several statements with a program
counter, private writes and held row locks; every step of every open transaction may come next, and an
abort may strike at any point (it stands for timeouts, lost connections, deadlock victims and statements
that fail for reasons outside these three tables). `Verdict` and `Effect` say what a call answers and
does when it runs alone. The proof is rely-guarantee: `TxOk` is what a transaction counts on at each
statement, `Guarantee` what a commit may change given the locks it holds, `Stable` that the one survives
the other. `OwnershipOrder` places every finished call at one moment of its life, `OwnershipWaiting` and
`OwnershipProgress` decide who waits for whom, `OwnershipWitnesses` holds the runs that go wrong.

**Concurrent threads** (`Thread*.dfy`). The same construction for users, workspaces, channels and
messages: posts, edits and message deletes run against each other and against the deletion of channels,
workspaces and accounts. An update writes a whole row version, so the model would lose counter updates
if the locks did not prevent it. `ThreadLocks` knows which rows every open transaction has locked,
`ThreadWaiting` and `ThreadProgress` say when nobody gets stuck, `ThreadWitnesses` holds a deadlock for each
part of that condition.

**Concurrent channel members** (`ChannelMembers.dfy`). A third, smaller transition system over users,
workspaces, memberships, channels and channel members, in which a transaction is any sequence of row
locks, inserts and deletes. It is about the foreign keys only.

**The full schema** (`Schema`, `Soundness`, `Statements`, `Reachability`, `Closures`, `CascadeSteps`). Eight
tables as maps, every key as a predicate (`Intact`), the services' own invariants on top (`Sound`). The closure
of a cascade is a least closed set; `Closures` spells it out for every kind of delete, and `Survivors` says, table
by table and without cascades, which rows each delete leaves and that they are as they were.

**Transactions and services** (`Transactions`, `Services`, `WorkspaceService`, `UserService`,
`MessageService`, `ChannelQueries`, `Listings`, `Text`). Imperative: a `Database` and a `Transaction`
class with the open, aborted and closed states, a delete that runs its triggers, one for each deleted row
and foreign key, as a worklist in any order, and the service methods with the branches and error results
of the Go code. Each contract states the answer and the new tables twice: as the sequential call of the
concurrent models, and in plain tables. `FailsIff` and `SucceedsIff` say of one error, or of success, that it
occurs only under a condition, and on a `steady` database, one without faults from outside, exactly under it.

**Projection** and **ThreadProjection** tie the levels: what a service method leaves on the full schema
is, seen through the tables of the first two concurrent models, the sequential effect used there.

Findings where the code does less than one might expect from it, each with the exact condition:

- `ReadWorkspace` locks the workspace, but the account deletion of a plain member does not take that
  lock. Its answer is exact at the moment of its listing, and every run is serializable, reads included
  (`EveryRunIsSerializable`), but not in the order of commits: a call's answer differs from what it answers
  alone at the moment it finishes exactly when it is a read and the deletion of some member's account has
  committed between its listing and its answer (`AnswersAreExactUnlessMemberLeft`); `ListingCanBeStale` gives
  such a run. `OwnershipRuns.EveryRunIsSequential`, which is about the order of commits, therefore compares
  the answer of a read after leaving out accounts deleted meanwhile; every other answer and all tables
  agree exactly.
- On the row locks of users, workspaces and memberships, every cycle of waits contains two account deletions
  (`CyclesHaveTwoDeletions`); with at most one open, every open call can be finished
  (`OwnershipProgress.EveryCallCanFinish`). Two can wait for each other (`DeletionsCanDeadlock`).
- On the row locks of users, workspaces, channels and messages nobody gets stuck while three things hold:
  every reply, stored or being posted, is in the channel of its root, or in its workspace if no channel is
  being deleted; no message delete is open; at most one account deletion is (`ThreadWaiting.NoCycleOfWaits`,
  `ThreadProgress.EveryCallCanFinish`). Without the second and third, a cycle of waits contains a message delete
  or consists of account deletions alone (`CyclesAreDeletions`). Nothing in the code keeps replies with their
  roots, and each part is needed: two workspaces, or two channels of one workspace, whose threads cross
  (`WorkspaceDeletionsCanDeadlock`, `ChannelDeletionsCanDeadlock`), a root and its reply deleted at the same time
  (`MessageDeletesCanDeadlock`) and two users who have posted in each other's workspace
  (`AccountDeletionsCanDeadlock`) can end in a deadlock.
- Pages ordered by `created_at` alone tile exactly when no two messages of the listing were created at
  the same time (`PagesTileIffDistinct`).
- An account can be deleted exactly when no direct message names it and every channel message it wrote
  goes with the workspaces it owns (`Deletable`).
- The comment on `DeleteChannelMessage` says that it removes a message and its replies; the foreign key
  makes it remove all descendants, in whatever channel they were posted (`BelowIffLeads`). The model
  follows the code.
- `ReadChannelThreadReplies` reports a stored message without replies as not found.
- `CreateWorkspace` does not return a failed owner insert other than a missing user; the commit that
  follows runs on an aborted transaction, so no ownerless workspace is published.

## Model

| member | source | states |
|---|---|---|
| OwnershipRuns.EveryRunIsSequential | internal/workspace/service.go:33-342 | In every interleaving of the six membership calls and registration, with aborts anywhere, the committed tables are those of running the finished calls one after the other in the order they finished, and each call answered what it answers there (a listing: up to accounts deleted since it was read; the order in which it is exact too is that of OwnershipOrder.EveryRunIsSerializable). |
| OwnershipOrder.EveryRunIsSerializable | internal/workspace/service.go:83-133 | The finished calls of every run can be put in one order, each at a moment while it was open, in which every answer, listings included, is exactly the sequential one, and which leaves the same tables. |
| OwnershipRuns.ExactlyOneOwner | internal/workspace/service.go:18-22 | In every committed state of every run each workspace has exactly one owner, who is a registered user. |
| OwnershipRuns.NextKeepsInv | internal/user/service.go:182-210 | Every step of any transaction, including those of an account deletion, keeps the run invariant. |
| OwnershipRuns.AdvanceKeepsTxOk | internal/workspace/service.go:156-204 | Each statement of each call establishes what the next one counts on. |
| OwnershipRuns.ReturnIsVerdict | internal/workspace/service.go:158-197 | Every error answer is the one the call would give if it ran alone on the tables of that moment. |
| OwnershipRuns.CascadeStarts | db/migrations/000001_init.up.sql:16-17 | The snapshot a cascade query takes covers every membership row that refers to the deleted parent, so none inserted concurrently escapes it. |
| OwnershipInvariant.CommitIsEffect | internal/user/service.go:195-206 | The writes a transaction publishes are exactly the sequential effect of its call on the tables it commits on. |
| OwnershipInvariant.CommitGuarantee | internal/db/sqlc/users.sql.go:90-107 | Whatever a commit inserts or deletes is covered by the locks of its transaction: a membership goes in only under a shared lock on its user and the exclusive lock on its workspace (or a fresh id). |
| OwnershipInvariant.Stable | internal/db/sqlc/workspaces.sql.go:142-153 | What an open transaction counts on survives the commit of any transaction with compatible locks. |
| OwnershipInvariant.EffectKeepsDbOk | db/migrations/000006_single_workspace_owner.up.sql:3-5 | Each call run alone keeps the foreign keys and exactly one owner per workspace. |
| OwnershipTheorems.OwnerNeverChanges | internal/workspace/service.go:258-262 | No run ever removes, demotes or replaces the owner of a workspace that still exists. |
| OwnershipTheorems.OwnerStaysOrRetires | internal/workspace/service.go:18-22 | An owner stays owner until the workspace is deleted, and a deleted workspace never comes back. |
| OwnershipTheorems.RemovalSparesOwners | internal/workspace/service.go:242-276 | The row a removal is about to delete is a plain membership in the current tables. |
| OwnershipTheorems.PermissionLasts | internal/workspace/service.go:156-179 | From the owner check until the call ends, whatever other transactions commit, its actor stays a registered user and the owner. |
| OwnershipListings.AnswerExactIff | internal/workspace/service.go:83-133 | In every run a logged answer is the one of the sequential call on the replayed tables if and only if every account it lists is still in them; so every answer but a listing is exact. |
| OwnershipListings.ListingCurrentIff | internal/workspace/service.go:101-128 | What ReadWorkspace is about to return is the current membership if and only if all listed accounts still exist. |
| OwnershipListings.ListingStaleIff | internal/workspace/service.go:101-132 | A listing read in one step and answered in a later one is out of date if and only if the deletion of a member's account commits in between. |
| OwnershipListings.AnswersAreExactUnlessMemberLeft | internal/workspace/service.go:99-132 | The same for every call of every run: the answer is exact unless the call is a read and a member's account deletion committed between its listing and its answer. |
| OwnershipListings.ExactAtOneMoment | internal/workspace/service.go:99-128 | Every call of every run answers what it answers alone on the tables of one moment while it is open: that of its listing for a read, that of its end for every other call. |
| OwnershipWitnesses.ListingCanBeStale | internal/workspace/service.go:101-132 | A run whose listing is not what the call answers alone on the tables it finishes on. |
| OwnershipWaiting.StartedWaitsForDeletions | internal/workspace/service.go:92-98 | In every run, for row locks on users, workspaces and memberships: a call past its first statement, unless it is an account deletion, waits for account deletions only. |
| OwnershipWaiting.NoChainOfWaits | internal/workspace/service.go:306-329 | In every run, for row locks on users, workspaces and memberships: if one call waits for a second and that for a third, the second or the third is an account deletion. |
| OwnershipWaiting.BlockerDoesNotWait | internal/user/service.go:182-206 | For row locks on users, workspaces and memberships: whoever an account deletion waits for does not wait for it, unless it is an account deletion itself. |
| OwnershipWaiting.CyclesHaveTwoDeletions | internal/user/service.go:182-206 | In every state of every run, whatever else is open, two different account deletions take part in every cycle of waits for row locks on users, workspaces and memberships. |
| OwnershipWaiting.NoCycleOfWaits | internal/user/service.go:182-206 | So with at most one open account deletion there is no such cycle. |
| OwnershipProgress.FinishOne | internal/workspace/service.go:232-282 | For row locks on users, workspaces and memberships: with no account deletion open, a call past its first statement reaches its answer by statements of its own only. |
| OwnershipProgress.FinishBlocker | internal/user/service.go:182-206 | For row locks on users, workspaces and memberships: whoever the only open account deletion waits for reaches its answer by statements of its own only. |
| OwnershipProgress.EveryCallCanFinish | internal/workspace/service.go:92-342 | For row locks on users, workspaces and memberships: from every state of every run in which at most one account deletion is open, all open calls can be run to their answers, none being aborted. |
| OwnershipWitnesses.DeletionsCanDeadlock | internal/user/service.go:182-206 | A run after which two account deletions wait for each other and no statement of either can go on. |
| ThreadTheorems.EveryRunIsSequential | internal/message/service.go:160-320 | Every interleaving of posts, edits and message deletes with the creation and deletion of channels, workspaces and accounts equals running the finished calls one after the other, answers included. |
| ThreadTheorems.CountsNeverDrift | db/migrations/000005_split_channel_message_reply_count_trigger.up.sql:4-39 | In every committed state of every run reply_count is the number of replies, and every message has its author, its channel with its workspace, and its root. |
| ThreadTheorems.CheckNeverFails | db/migrations/000003_add_channel_message_reply_count.up.sql:1-2 | No interleaving makes a decrement violate reply_count >= 0. |
| ThreadTheorems.ParentsStayWhilePosting | db/migrations/000001_init.up.sql:55-60 | From its foreign-key checks until the end of a posting transaction, author, channel and root stay, whatever others commit. |
| ThreadTheorems.NoMessageOutlivesItsAuthor | db/migrations/000001_init.up.sql:55 | When an account deletion is about to commit, every message its user wrote, by whatever transaction meanwhile, goes with it. |
| ThreadTheorems.NextKeepsInv | db/migrations/000005_split_channel_message_reply_count_trigger.up.sql:16-39 | Every step of any transaction keeps the run invariant of the thread model. |
| ThreadLocks.LocksKnownAt | db/migrations/000001_init.up.sql:53-61 | In every state of every run each lock is on a row its call names, has deleted or has recounted; a cascade deletes all channels of a workspace before it looks into one, and every message it has taken or found leads back to a channel it has looked into. |
| ThreadWaiting.GoneIsShut | db/migrations/000001_init.up.sql:58-60 | While replies go together with their roots, whatever a deletion of channels, workspaces or an account has deleted lies in channels in which it has stopped all posts. |
| ThreadWaiting.WaitsGoDown | internal/message/service.go:159-186 | Then, message deletes apart, a call waits only for calls of a lower level (finished writes, replies, channel deletions, workspace deletions, account deletions, posts before and at their channel check), but for account deletions at their RESTRICT checks. |
| ThreadWaiting.CyclesAreDeletions | internal/workspace/service.go:285-342 | In every state of every run in which replies go together with their roots, a cycle of waits contains a message delete, or consists of at least two account deletions, all at their RESTRICT checks. |
| ThreadWaiting.NoCycleOfWaits | internal/message/service.go:309-320 | If besides no message delete and at most one account deletion is open, there is no cycle. |
| ThreadProgress.RunOn | internal/message/service.go:159-186 | Every call left alone gets to its answer or to a lock it has to wait for; cascades, decrements and checks come to an end. |
| ThreadProgress.FinishFrom | internal/workspace/service.go:285-342 | Under that condition, following waits from any open call leads to one that can be finished, and the condition still holds afterwards. |
| ThreadProgress.EveryCallCanFinish | internal/workspace/service.go:285-342 | From every state of every run that meets the condition all open calls can be run to their answers, none being aborted. |
| ThreadWitnesses.WorkspaceDeletionsCanDeadlock | internal/workspace/service.go:328-335 | A run after which two workspace deletions whose threads cross wait for each other, neither can take a step, and nothing else is open. |
| ThreadWitnesses.ChannelDeletionsCanDeadlock | internal/db/sqlc/channels.sql.go:55-66 | The same for two channels of one workspace. |
| ThreadWitnesses.MessageDeletesCanDeadlock | internal/db/sqlc/channel_messages.sql.go:50-61 | The same for the delete of a root and the delete of its reply in the same channel. |
| ThreadWitnesses.AccountDeletionsCanDeadlock | internal/user/service.go:182-206 | The same for two account deletions at their RESTRICT checks, without any reply stored. |
| ChannelMembers.EveryReferenceHolds | db/migrations/000001_init.up.sql:15-47 | In every interleaving of transactions that lock, insert and delete any users, workspaces, memberships, channels and channel members, all foreign keys between the five tables hold in every committed state. |
| ChannelMembers.MembersOfChannelsBelong | db/migrations/000001_init.up.sql:32-47 | In particular whoever is in a channel is a registered user and a member of the workspace that channel is in. |
| ChannelMembers.RowsBelong | db/migrations/000001_init.up.sql:15-30 | In every committed state each member is a registered user, and each member and each channel is in a workspace that exists. |
| ChannelMembers.CheckedRowsStay | internal/db/sqlc/channels.sql.go:14-29 | From its foreign-key checks until its transaction ends, the user, the channel and the membership an inserted channel member refers to stay, whatever removals and deletions are under way. |
| ChannelMembers.AdvanceKeepsTxOk | db/migrations/000001_init.up.sql:36-46 | Each statement, foreign-key check and cascade query keeps: what is in sight is met, about to be checked or about to be deleted. |
| ChannelMembers.CommitIsCovered | db/migrations/000001_init.up.sql:36-46 | A commit leaves no reference unmet, and holds KEY SHARE on all its new rows refer to. |
| ChannelMembers.Stable | db/migrations/000001_init.up.sql:36-46 | What an open transaction counts on survives the commit of any transaction with compatible locks. |
| ThreadRuns.AdvanceKeepsTxOk | db/migrations/000005_split_channel_message_reply_count_trigger.up.sql:4-27 | Each statement and trigger, the triggers of a delete in any order and those of a post in their one order, establishes what the rest of the transaction counts on. |
| ThreadRuns.CountStaysPositive | db/migrations/000005_split_channel_message_reply_count_trigger.up.sql:20-23 | A decrement that finds its root finds a count of at least one. |
| ThreadRuns.ReturnIsVerdict | internal/message/service.go:310-320 | Every error answer is the one the call would give if it ran alone. |
| ThreadRuns.RestrictIsVerdict | db/migrations/000001_init.up.sql:55 | A message that stops an account deletion is outside everything that would go with the account in the tables of that moment. |
| ThreadInvariant.CommitIsEffect | db/migrations/000005_split_channel_message_reply_count_trigger.up.sql:29-39 | A committing delete has removed exactly the closure of what it named and subtracted exactly the lost replies; a committing post has added exactly one. |
| ThreadInvariant.Stable | db/migrations/000005_split_channel_message_reply_count_trigger.up.sql:8-10 | The row versions a transaction is about to write are still based on the current ones after any compatible commit: no counter update is lost. |
| ThreadInvariant.EffectKeepsDbOk | db/migrations/000001_init.up.sql:53-61 | Each call run alone keeps the foreign keys and the exact counts. |
| Entities.WithoutKeepsCounts | db/migrations/000005_split_channel_message_reply_count_trigger.up.sql:16-27 | Deleting any set of messages, roots and replies together, keeps every surviving count exact. |
| Entities.PostedKeepsCounts | db/migrations/000005_split_channel_message_reply_count_trigger.up.sql:4-14 | Posting keeps every count exact. |
| Reachability.ReachIsPaths | db/migrations/000001_init.up.sql:15-61 | The least closed set a cascade removes is what finite chains of references lead to. |
| Reachability.ReachLeast | db/migrations/000001_init.up.sql:15-61 | It is contained in every closed set that contains the deleted rows. |
| Schema.ParentsAreReferenced | db/migrations/000001_init.up.sql:15-61 | The rows a cascade goes on from are those a cascading foreign key refers to, each through a key on its own table. |
| Transactions.Transaction.RunCascade | db/migrations/000005_split_channel_message_reply_count_trigger.up.sql:16-39 | The worklist of cascade triggers, one for each deleted row and foreign key, and counter triggers terminates and, in whatever order they run, leaves exactly the rows outside the least closure, each surviving count reduced by exactly its deleted replies; no count goes below zero on the way. |
| CascadeSteps.CascadeStep | db/migrations/000001_init.up.sql:15-61 | Running the trigger of one foreign key on one deleted row keeps the invariant of a half-done cascade. |
| CascadeSteps.CascadeSubtract | db/migrations/000005_split_channel_message_reply_count_trigger.up.sql:20-23 | Running one decrement keeps it, and finds a count to take from. |
| CascadeSteps.CascadeDone | db/migrations/000001_init.up.sql:15-61 | When nothing is left to run, exactly the closure is gone. |
| Closures.MessageCascade | db/migrations/000001_init.up.sql:60 | Deleting a message removes exactly the message and its descendants. |
| Closures.ChannelCascade | db/migrations/000001_init.up.sql:39-41 | Deleting a channel removes exactly it, its members, its messages and the threads below them. |
| Closures.WorkspaceCascade | internal/workspace/service.go:285-287 | Deleting workspaces removes exactly them, their members, channels, channel members, the messages of those channels and all threads below them. |
| Closures.MemberCascade | db/migrations/000001_init.up.sql:42-46 | Removing a member removes exactly that membership and that user's channel memberships in that workspace. |
| Closures.UserCascade | db/migrations/000004_add_user_identities_table.up.sql:1-8 | Deleting a user row removes exactly it and the user's identities, memberships and channel memberships. |
| Closures.PruneTwice | internal/user/service.go:195-200 | Two deletes in a row leave what deleting all the rows at once leaves, counts included. |
| Survivors.WithoutCuts | db/migrations/000001_init.up.sql:60 | Once messages and all below them are gone, a message is gone exactly if it was one of them or its root is gone, and the others are as they were but for their counts, which are the numbers of replies left. |
| Survivors.MemberRowsLeave | db/migrations/000001_init.up.sql:32-47 | The cascade of a membership takes it and the user's places in channels of that workspace, and leaves every other row as it was. |
| Survivors.ChannelRowsLeave | db/migrations/000001_init.up.sql:32-61 | The cascade of a channel takes it, its members, its messages and the threads below them, and leaves every other row as it was but for counts. |
| Survivors.WorkspaceRowsLeave | db/migrations/000001_init.up.sql:15-61 | The same of workspaces, with their members and channels. |
| Survivors.AccountRowsLeave | internal/user/service.go:195-206 | The same of the workspaces an account owns, together with the user, the identity, the memberships and the places in channels. |
| Schema.PruneKeepsIntact | db/migrations/000001_init.up.sql:1-61 | A cascade that no RESTRICT key forbids keeps every key, every count and the acyclic threads. |
| Schema.EmptyIsSound | db/migrations/000001_init.up.sql:1-61 | Freshly migrated tables satisfy every invariant. |
| Statements.InsertSeatKeeps | db/migrations/000001_init.up.sql:39-46 | Adding a channel member keeps every key: whoever is in a channel is in its workspace. |
| Statements.InsertMemberKeeps | db/migrations/000006_single_workspace_owner.up.sql:3-5 | An accepted membership insert keeps every key, the single owner included. |
| Statements.InsertIdentityKeeps | db/migrations/000004_add_user_identities_table.up.sql:1-8 | An accepted identity insert keeps every key. |
| Statements.InsertMessageKeeps | db/migrations/000001_init.up.sql:53-61 | An accepted post keeps every key, the counts and the acyclic threads. |
| Statements.UpdateMessageKeeps | internal/message/service.go:189-215 | Editing a body keeps every key and leaves counts and threads alone. |
| Transactions.Transaction.Execute | internal/db/tx.go:11-15 | A statement either takes its effect or aborts the transaction, after which every statement fails. |
| Transactions.Transaction.DeleteRows | db/migrations/000001_init.up.sql:55 | A delete succeeds only if no RESTRICT key refers to a deleted user, and then all that cascades from its rows is gone; every row that is left is as it was, but for counts of messages. |
| Transactions.Transaction.Commit | internal/db/tx.go:31-34 | Publishes the writes exactly on success; after a failed statement it rolls back and reports an error; the transaction is closed in every case. |
| Transactions.Transaction.Rollback | internal/db/tx.go:17-20 | Closes without publishing, and says so if already closed. |
| Transactions.Transaction.RollbackUnlessClosed | internal/db/tx.go:22-29 | Leaves the transaction closed in every case and is no error on a closed one. |
| Transactions.BeginTx | internal/db/db.go:37-49 | A begun transaction sees the committed tables; a failed begin leaves nothing open. |
| Services.Finish | internal/workspace/service.go:53-57 | The deferred rollback closes what is still open, keeps the result and joins its own failure to an error. |
| WorkspaceService.Service.CreateWorkspace | internal/workspace/service.go:32-81 | On every exit no transaction is open; an error leaves all tables as they were; without faults it succeeds exactly for a registered actor; success adds exactly the workspace, with the trimmed name and the time, and the actor as its owner, and returns them, also when a failed owner insert was not returned. |
| WorkspaceService.Service.AddWorkspaceMember | internal/workspace/service.go:135-206 | The same; not found exactly if there is no such workspace, forbidden exactly if the actor does not own it, then already a member, then no such user, and otherwise exactly one new plain member. |
| WorkspaceService.Service.RemoveWorkspaceMember | internal/workspace/service.go:208-283 | The same; if the actor owns the workspace, an owner removal exactly when the user is the actor, and otherwise member not found exactly when the user has no membership; success removes exactly the membership and the user's places in channels of that workspace, and every other row is as it was. |
| WorkspaceService.Service.DeleteWorkspace | internal/workspace/service.go:285-342 | The same; without faults it succeeds exactly for the owner, whoever else is a member; success removes exactly the workspace, its members, channels and channel members, its messages and the threads below them, and every other row is as it was, except the counts of roots that lost replies. |
| WorkspaceService.Service.ReadWorkspace | internal/workspace/service.go:83-133 | Changes nothing; not found exactly if there is no such workspace, forbidden exactly if the actor is no member of it, otherwise the stored name and time and each member once with the stored role, in user order. |
| WorkspaceService.Service.ListWorkspaceMembers | internal/db/sqlc/workspaces.sql.go:113-140 | Returns every member of the workspace once, with the stored role, in user order. |
| WorkspaceService.RemovedWasMember | internal/workspace/service.go:253-262 | Owner check, self-removal check and the single-owner index together: whom the owner removes is a plain member. |
| WorkspaceService.DeleteKeepsSound | db/migrations/000001_init.up.sql:15-61 | Deleting workspaces keeps every invariant of the full schema. |
| WorkspaceService.RemoveKeepsSound | db/migrations/000001_init.up.sql:32-47 | Removing a plain member keeps every invariant of the full schema. |
| Projection.RemoveProjects | internal/workspace/service.go:263-276 | On users, workspaces and memberships the delete with its cascade is the sequential removal of the concurrent model. |
| Projection.DeleteWorkspaceProjects | internal/workspace/service.go:328-335 | The same for workspace deletion. |
| Projection.DeleteUserProjects | internal/user/service.go:195-206 | The same for the two deletes of an account deletion. |
| ThreadProjection.PostProjects | internal/db/sqlc/channel_messages.sql.go:14-48 | A post is accepted exactly when the sequential call of the thread model accepts it, and leaves what that leaves; otherwise it fails at the foreign key the sequential call names. |
| ThreadProjection.DeleteMessageProjects | internal/db/sqlc/channel_messages.sql.go:50-61 | In the thread model the delete with its cascade is the sequential message delete. |
| ThreadProjection.DeleteChannelProjects | internal/db/sqlc/channels.sql.go:55-66 | The same for channel deletion. |
| ThreadProjection.DeleteWorkspaceThreads | internal/workspace/service.go:328-335 | The same for workspace deletion by its owner. |
| ThreadProjection.DropWorkspaceVerdict | internal/workspace/service.go:306-327 | The thread model answers not found exactly if there is no such workspace and forbidden exactly if the actor has no owner membership in it, and otherwise deletes it. |
| ThreadProjection.DeleteUserThreads | internal/user/service.go:195-206 | The same for the two deletes of an account deletion. |
| ThreadProjection.WorkspaceProjects | internal/workspace/service.go:59-75 | The same for the creation of a workspace with its owner. |
| ThreadProjection.RemoveMemberThreads | internal/workspace/service.go:263-276 | Removing a plain member changes no user, owner, channel or message. |
| UserService.Service.CreateUser | internal/user/service.go:31-97 | Profile and identity are stored together or not at all; each refusal is the first that applies, in the order of the code; without faults it succeeds exactly when nothing is blank or taken; it then stores and returns the three fields as passed in without the white space around them and the time, and adds exactly that user and the identity with issuer and subject as passed in. |
| UserService.Service.ReadUserByIdentity | internal/user/service.go:136-148 | Returns the stored profile of the user the raw issuer and subject belong to, not found exactly if there is none, or a database error. |
| UserService.RegisteredResolves | internal/user/service.go:74-77 | After registration the identity exactly as passed in, blanks included, belongs to the new user. |
| UserService.RegistrationKeepsIdentities | db/migrations/000004_add_user_identities_table.up.sql:1-8 | Later registrations leave every identity with its user. |
| UserService.DeletionKeepsOtherIdentities | db/migrations/000004_add_user_identities_table.up.sql:3 | Deleting one account leaves every other user's identity. |
| UserService.AccountsAreBijective | db/migrations/000004_add_user_identities_table.up.sql:1-8 | Users and external identities correspond one to one in every state the services reach. |
| UserService.Service.DeleteUser | internal/user/service.go:163-213 | Forbidden exactly for another actor, not found exactly for no user, success without faults exactly when the account is deletable; otherwise nothing changes, the owned workspaces included; success removes exactly the user, the identity, the user's memberships and places in channels, and the owned workspaces with all that is in them, and every other row is as it was, except the counts of roots that lost replies. |
| UserService.RestrictedIff | db/migrations/000002_add_direct_messages_table.up.sql:19-20 | Once the owned workspaces are gone, the RESTRICT keys let the user go if and only if the account was deletable to begin with. |
| UserService.DeletableIff | db/migrations/000002_add_direct_messages_table.up.sql:19-20 | An account is deletable exactly when no direct message names it and the sequential deletion of the thread model succeeds. |
| UserService.DeletableInTables | internal/user/service.go:195-206 | An account is deletable exactly when no direct message names it and from every channel message it wrote thread_root_id leads to one in a workspace it owns. |
| UserService.AccountRowsAreOneCascade | internal/user/service.go:195-200 | The two deletes remove what one cascade from the owned workspaces and the user would. |
| UserService.DeletedSound | internal/user/service.go:182-210 | An account deletion keeps every key, every count, every remaining owner and the match of users and identities. |
| MessageService.Service.SendChannelMessage | internal/message/service.go:159-186 | Without faults a nonempty post succeeds exactly when author, channel and root exist; it adds exactly the message, as passed in, and one to the count of its root. |
| MessageService.Service.UpdateChannelMessage | internal/message/service.go:188-215 | Changes body and update time of that message only, or reports it missing. |
| MessageService.Service.DeleteChannelMessage | internal/message/service.go:309-320 | Removes exactly the message and its descendants; every other message is as it was, except that the counts are again the numbers of replies; or it reports the message missing, exactly when it is. |
| MessageService.BelowIffLeads | db/migrations/000001_init.up.sql:60 | A message goes with m exactly when following thread_root_id from it arrives at m. |
| MessageService.Service.ReadChannelMessagePage | internal/message/service.go:242-280 | Refuses limits and offsets beyond 32 bits; otherwise, apart from database errors, the rows offset up to offset + limit, as far as there are any, of all messages of the channel without a root, each once, with created_at falling; with offset 0 none that is left out is newer than one returned. |
| MessageService.ChannelPage | internal/db/sqlc/channel_messages.sql.go:63-70 | Any page of a listing of the channel is in order, and the first page holds the newest messages. |
| MessageService.Service.ReadChannelThreadReplies | internal/message/service.go:282-307 | Apart from database errors, not found exactly when the root is absent or its count is zero; otherwise as many replies as reply_count says, all of them, each once, with created_at rising. |
| MessageService.Service.SendDirectMessage | internal/message/service.go:24-51 | Without faults a nonempty message between distinct users is stored exactly when both exist, and joins exactly their conversation. |
| MessageService.Service.UpdateDirectMessage | internal/message/service.go:53-78 | Changes body and update time of that message only, or reports it missing. |
| MessageService.Service.DeleteDirectMessage | internal/message/service.go:146-156 | Removes that message only, or reports it missing. |
| MessageService.Service.ReadDirectMessagePage | internal/message/service.go:103-144 | Refuses, in this order, a limit or offset beyond 32 bits and a conversation with oneself; otherwise, apart from database errors, the rows offset up to offset + limit, as far as there are any, of all messages one of the two sent to the other, each once, with created_at falling; with offset 0 none that is left out is newer than one returned. |
| MessageService.DirectPage | internal/db/sqlc/direct_messages.sql.go:59-68 | The same for a conversation. |
| MessageService.NarrowingLosslessIff | internal/message/service.go:111-126 | The guard lets through exactly the values the conversion to 32 signed bits keeps. |
| ChannelQueries.CreateChannel | internal/db/sqlc/channels.sql.go:31-53 | Succeeds, without faults, exactly when the workspace exists and has no channel of that name, and names the key it fails at otherwise; adds exactly that channel. |
| ChannelQueries.AddChannelMember | internal/db/sqlc/channels.sql.go:14-29 | Succeeds, without faults, exactly for a present channel member, where it changes nothing, and for a member of the channel's own workspace, whom it adds. |
| ChannelQueries.DeleteChannel | internal/db/sqlc/channels.sql.go:55-66 | Removes exactly the channel, its members, its messages and the threads below them; every other row is as it was, except the counts of roots that lost replies. |
| Listings.Sort | internal/db/sqlc/direct_messages.sql.go:59-68 | Lists the selected rows once each, highest rank first. |
| Listings.RanksOrder | internal/db/sqlc/channel_messages.sql.go:63-112 | A listing by the rank of its query has exactly the rows the query asks for, each once: channel pages and conversations with created_at falling, threads with created_at rising. |
| Listings.ListingUnique | internal/db/sqlc/direct_messages.sql.go:66 | With distinct times there is only one such list. |
| Listings.PagesTileIffDistinct | internal/db/sqlc/direct_messages.sql.go:66-67 | Consecutive pages always put together to what one larger page returns, if and only if no two listed rows have the same time. |
| Listings.ListingLength | internal/db/sqlc/channel_messages.sql.go:107-112 | A listing is as long as the set it lists. |
| Listings.ConversationIff | internal/db/sqlc/direct_messages.sql.go:62-65 | The filter on the smaller and the greater participant finds exactly the messages one of the two sent to the other. |
| Listings.ConversationsPartition | internal/message/service.go:118-120 | Every stored message is in a conversation of two distinct users, in no other one, and the order of the two does not matter. |
| Listings.ListedExactlyOnce | internal/db/sqlc/channel_messages.sql.go:63-70 | Every message is in exactly one listing, its channel's top level or the replies of its stored root; no reply is in a channel page. |
| Text.TrimSpaceCuts | internal/workspace/service.go:37-40 | Trimming cuts off white space at both ends, all of it, and nothing else. |
| Text.TrimSpaceEmptyIff | internal/user/service.go:33-50 | A field counts as empty exactly when it is all white space. |

## Left out

- HTTP handlers, status mapping, routing, health checks, configuration: one-branch plumbing.
- JWT and OIDC validation and UUID parsing: the actor id is given; ids are opaque values with a total order, and a new one is one that no row has (in the concurrent models: or ever had, and that no caller knows yet).
- ReadUser, ListUsers, ReadUserProfile, ListWorkspaceChannels and the single-message reads: lookups and projections of one table or one join.
- The admin role: declared, accepted by the CHECK on roles, and used by no code.
- FOR SHARE row locks, advisory locks and other isolation levels: no statement uses them.
- The concurrent membership model has no messages, so the RESTRICT keys that can stop an account deletion appear there as an abort; the exact condition is proved on the full schema.
- The concurrent membership model has no email, user name and identity conflicts of a registration; they are proved on the full schema.
- The concurrent membership model ends a creation at once when the owner insert fails; that the code goes on to a commit that fails is modelled in CreateInTx on the full schema.
- The concurrent thread model has no memberships, channel members, identities and direct messages: the owner of a workspace is a column of it (that owners never change is proved in the membership model), the owner check of a workspace deletion is one step with its lock, and the RESTRICT keys of direct messages appear as an abort.
- The concurrent thread model has no unique key of channel names and no CHECK on bodies: a violation appears as an abort; both are proved on the full schema.
- Waits for rows of several models at once: each result on waits is for the row locks of the tables of its own model, in which the locks on the others do not occur.
- The order in which PostgreSQL fires queued triggers: the concurrent models let them run in any order, so some of their runs are not possible there. The deadlocks shown do not depend on it: in each every trigger still to be run has to wait.
- The concurrent channel-member model has no owner checks, roles, messages, identities or answers: it decides the foreign keys, for transactions of any such statements on any rows.
- PostgreSQL itself: the lock conflict table, statement snapshots, trigger timing and the meaning of ON DELETE are taken from its manual (sections 13.2.1, 13.3.2 and 39.1), not proved.
- A commit that reports an error is taken not to have been published.
- Timestamps are numbers given by the caller; that NOW() is the start of the transaction is not modelled. joined_at of members, and created_at of channels and identities, are left out: no modelled answer but that of CreateChannel returns one.
- ChannelQueries.CreateChannel: created_at of the returned row is left out.
- NOT NULL, text encodings, and BIGINT overflow of reply_count: unbounded integers stand for it.
- Messages older than the third migration: reply_count starts at zero without a backfill, so the exact counts are proved from freshly migrated, empty tables.
- Down migrations, the migration runner, connection pooling and context cancellation other than as a fault.
- Error texts: every wrapped database error is Internal.
