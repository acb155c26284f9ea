# Rakazo: models of the protocols and loops that keep its promises

Dafny models of the parts of Rakazo whose correctness depends on more than one function: who
answers a team chat event, whether its reply can be posted twice, whether the desktop's `compose
up` and `compose stop` can overlap, whether a repeated send creates a second run, whether a pager
loses a row. Where the source updates an object in place the model is a class whose methods
follow the source's statements, and each method is proved equal to a function on values; the
properties are lemmas about every run of those functions. `dafny verify dfyconfig.toml` checks
the whole project.

| file | what it models |
|---|---|
| `TeamChatRow.dfy` | an external message row and every guarded update applied to it |
| `TeamChatProtocol.dfy` | one event's ownership and delivery protocol as a step relation: any number of processes, each with a reconcile pass and interleaving inbound handlers, crashes and restarts |
| `TeamChatDelivery.dfy` | at-most-once reply, forward-only rows, one agent run, over all runs |
| `TeamChatOwnership.dfy` | exclusion between a routine wake and a linked agent run |
| `TeamChatRaces.dfy` | a concrete run for each way in which that exclusion fails, and the exact condition |
| `TeamChatOutcomes.dfy` | when and how an event is answered: only after its run has ended, and as it ended |
| `TeamChatFate.dfy` | what an event can come to: the judge comes first, nothing is lost in one process, an ended run can be answered |
| `AmbientPass.dfy` | the ambient pass, with a table that may change and a query that may be rejected at every await |
| `ExternalOrigin.dfy` | tracing a run back to the chat message it answers |
| `LocalStack.dfy` | the start/stop scheduler over a table of promises |
| `ThreadDispatch.dfy`, `ThreadReplay.dfy` | the two send dispatchers and the idempotent repeat, after any further sends |
| `ThreadPages.dfy`, `ArtifactPages.dfy` | cursor loops over message and artifact lists |
| `ArtifactDeletion.dfy` | publishing artifact versions, and the family deletion loop |
| `Routines.dfy` | routine rows and their wakeup jobs, with updates that overlap other operations |
| `DesktopUpdates.dfy` | the updater's reducer and controller |
| `DockerLines.dfy`, `Handshake.dfy` | chunked line assembly and the chunked search for the end of a response head |
| `Common.dfy` | values and sequence lemmas the others share |

## What the proofs show about the code

Some promises hold only under conditions, and some fail. Each failure below is a lemma.

- A lease renewal that rejects with an ordinary error hands the row to the agent while the wake is
  still outstanding (apps/api/src/app.ts:671-675), so both can answer. Two deliveries of the
  event in the same millisecond both take the row, because the create branch is recognised by its
  lease time (apps/api/src/team-chat-bridge.ts:274-276). `promoteAmbientTrigger` guards on the
  status alone and so can take a row that a wake has reserved
  (apps/api/src/team-chat-bridge.ts:888-897). The in-flight mark is local to a process. These are
  the four hypotheses of `OwnershipExclusion`, and `EveryConditionIsNeeded` gives a run for each.
- With two bridge processes a message can be lost: a process whose expired claim was taken back
  finds the row no longer its own and abandons it by status alone
  (apps/api/src/team-chat-bridge.ts:979-1046), which also hits the claim another process has made in
  the meantime, so the row is ignored although no routine took it. `NothingLostExactly`: of all
  hazards, only a second process can lose an event.
- Between an update's read of a routine and its write, a wakeup may fire. Rows and queue then agree
  exactly when the update overrides the schedule it read (`FireBetween`); a mere rename puts back the
  time that has just fired, while the queue holds the next one (`RenamedWhileFiring`).
- A direct steering writes an event without run ids, so its repeat answers with another run as
  soon as any run names the message as its source (`ReplayIsOriginal` is an equivalence). No later
  send does that (`RepeatAfterSends`).
- The group loop and the direct branch agree in chat mode. For a voice turn they agree exactly when
  no target has work in flight or some target's ask stays unanswered (`VoiceDiffers`);
  `VoiceConflictsAlone` is a run they treat differently.
- Two update checks can follow each other at given times exactly when they are 60 seconds apart or a
  manual retry left the frozen phase in between (`SpacingExactly`); `RetryIgnoresInterval` shows two
  checks a millisecond apart.
- The loop of `deleteArtifactFamily` ends exactly when no other owner's version hangs under the
  owner's root or a blob removal fails first (`DeletionEndsExactly`): the member query is scoped to
  the owner, the child query of the root's transaction is not. The writers of the table never
  produce such a version, so every deletion ends (`EveryDeletionEnds`).

## Model

| member | source | states |
|---|---|---|
| TeamChatRow.RetryDelay | apps/api/src/team-chat-bridge.ts:1251-1252 | The back-off of a failed attempt is between one second and one minute for every attempt count. |
| TeamChatDelivery.StepKeeps | apps/api/src/team-chat-bridge.ts:607-671 | Every step of every process keeps the delivery invariant and moves the row only forward. |
| TeamChatDelivery.WriteRow | apps/api/src/team-chat-bridge.ts:1003-1112 | Every guarded update of a reconcile pass keeps the row well formed, moves it forward, keeps a delivering row delivering or delivered, keeps a stored handle justified, and changes the run only when linking. |
| TeamChatDelivery.ReceiveKeeps | apps/api/src/team-chat-bridge.ts:241-289 | The inbound side, from upsert and take-over to the first lease, keeps the invariant whatever the row's state. |
| TeamChatDelivery.MainKeeps | apps/api/src/app.ts:634-689 | Racing, re-holding, resolving and leaving keep the invariant on every branch. |
| TeamChatDelivery.RetryKeeps | apps/api/src/team-chat-bridge.ts:1250-1290 | A retry never returns a row to a status from which the reply could be sent again. |
| TeamChatDelivery.ReadFacts | apps/api/src/team-chat-bridge.ts:1178-1187 | The provider is called only by the pass that left `running`, which has not called it before; whether the call is accepted does not matter. |
| TeamChatDelivery.RunKeeps | apps/api/src/team-chat-bridge.ts:607-671 | The invariant and the forward order hold over whole runs. |
| TeamChatDelivery.AtMostOneReply | apps/api/src/team-chat-bridge.ts:1170-1290 | Over every run of any number of processes with crashes and retries, the provider's send is called at most once, rejected calls included, and a provider handle on record means it was called. |
| TeamChatDelivery.LinkedRowsMoveForward | apps/api/src/team-chat-bridge.ts:1003-1112 | Between any two states of a run: the run id is written once, a linked row goes running, delivering, delivered, an ignored row stays ignored, at most one agent run exists for the event and a linked row names it. |
| TeamChatOutcomes.RepliesFollowTheRun | apps/api/src/team-chat-bridge.ts:657-669 | In every state of every run: a row being delivered, delivered or holding a handle is linked to an ended run; the provider was called with a completion only for a completed run and with a failure only for a failed or cancelled run of a message that is not ambient; a row silenced without a call is an ambient one, marked silent if its run completed and silent-failure if not. |
| TeamChatOutcomes.EndedBeforeAnswering | apps/api/src/team-chat-bridge.ts:663-668 | Whatever step calls the provider, reserves the delivery or marks the row, the linked run had ended before that step. |
| TeamChatOutcomes.StepFits | apps/api/src/team-chat-bridge.ts:1116-1193 | Every step of every process keeps the reply in line with how the run ended, stale local reads included. |
| TeamChatFate.EndedRunCanBeAnswered | apps/api/src/team-chat-bridge.ts:650-668 | From any state with a due row linked to an ended run, an idle pass of any process can deliver it, with one call of the kind the run's end asks for, or in silence for an ambient failure. |
| TeamChatOwnership.ReceiveOwns | apps/api/src/app.ts:621-628 | Lease and in-flight mark establish that the wake's row cannot be claimed. |
| TeamChatOwnership.WakeOwns | apps/api/src/messaging-inbound.ts:189-255 | A wake delivers only a row it holds, and its message never meets a linked row. |
| TeamChatOwnership.MainOwns | apps/api/src/app.ts:634-689 | Lost leases, wake failures and the final resolve keep ownership with the outstanding wake. |
| TeamChatOwnership.WriteReserved | apps/api/src/team-chat-bridge.ts:507-605 | No update of a pass takes away a row a wake has reserved, given what the pass has read. |
| TeamChatOwnership.WriteExcludes | apps/api/src/team-chat-bridge.ts:1003-1112 | Claim, re-reads and link never link a row whose wake message exists. |
| TeamChatOwnership.StepOwns | apps/api/src/team-chat-bridge.ts:507-605 | Every step without a hazard keeps the ownership invariant, across crash, restart and boot recovery. |
| TeamChatOwnership.OwnershipExclusion | apps/api/src/app.ts:619-689 | In one process, with non-throwing renewals, no second claim of a held event and no judge promotion of a reserved row, no run reaches a linked row beside a routine wake message. |
| TeamChatOwnership.DirectOwnershipExclusion | apps/api/src/team-chat-bridge.ts:942-1114 | For messages that are not ambient the judge condition is not needed. |
| TeamChatRaces.RenewalRace | apps/api/src/app.ts:671-675 | A run in which a renewal throws and both the wake and a linked agent run exist. |
| TeamChatRaces.OverlapRace | apps/api/src/team-chat-bridge.ts:274-288 | A run in which two deliveries in the same millisecond both hold the event and the first one's release lets an agent run be linked beside the second's wake. |
| TeamChatRaces.JudgeRace | apps/api/src/team-chat-bridge.ts:888-897 | A run in which the judge promotes a row a wake has reserved. |
| TeamChatRaces.ProcessRace | apps/api/src/team-chat-bridge.ts:446-463 | A run in which a second process releases the expired claim of a wake that is alive in the first. |
| TeamChatRaces.EveryConditionIsNeeded | apps/api/src/team-chat-bridge.ts:507-605 | For each hazard there is a run that shows only that hazard and ends with a linked row and a wake message. |
| TeamChatRaces.ExclusionExactly | apps/api/src/app.ts:619-689 | Of the sets of hazards a run may show, exclusion holds for exactly one, the empty set. |
| TeamChatFate.AmbientNeedsJudge | apps/api/src/team-chat-bridge.ts:761-897 | An ambient message is received, queued or linked only in a run in which the judge decided to act, whatever leases, retries and releases it went through. |
| TeamChatFate.WakeNeedsRoutine | apps/api/src/messaging-inbound.ts:189-199 | A routine wake message exists only in a run in which a handler found a routine for the event. |
| TeamChatFate.NothingLost | apps/api/src/team-chat-bridge.ts:942-1112 | In one process, whatever other hazards a run shows, an event is ignored only if a routine wake was sent or the judge declined. |
| TeamChatFate.NothingLostExactly | apps/api/src/team-chat-bridge.ts:979-1046 | Of the sets of hazards a run may show, no event is lost for exactly those without a second process. |
| AmbientPass.AmbientEvaluator.MarkAmbientIgnored | apps/api/src/team-chat-bridge.ts:899-905 | In any world, an accepted update leaves the table it finds with exactly the named rows still observed turned to ignored; a rejected one, or an empty list, writes nothing. |
| AmbientPass.AmbientEvaluator.PromoteAmbientTrigger | apps/api/src/team-chat-bridge.ts:888-897 | In any world, it succeeds exactly if the row is observed in the table the update finds, and then only that row becomes received. |
| AmbientPass.AmbientEvaluator.DueRollupMessages | apps/api/src/team-chat-bridge.ts:907-940 | Keeps the messages of a set of senders, which undisturbed are those without a judged message within their rollup hours, as of the fetch. |
| AmbientPass.AmbientEvaluator.ActOn | apps/api/src/team-chat-bridge.ts:831-885 | From decision to writes: the verdict is the one that follows from the messages, its writes stay within what it owes, and another message is ignored only after the trigger has been promoted. |
| AmbientPass.AmbientEvaluator.EvaluateConversation | apps/api/src/team-chat-bridge.ts:798-886 | In any world a conversation's turn names only its own rows and makes only the writes its plan owes, in order; undisturbed it makes all of them; it fails only by a rejected query or a throwing judge. |
| AmbientPass.AmbientEvaluator.EvaluateAmbient | apps/api/src/team-chat-bridge.ts:761-887 | Whatever others do to the table and whichever queries are rejected, the table's history is the world's changes and the pass's guarded updates, each moving observed rows to ignored or received; every conversation reached ends by a plan that follows from its messages; only a rejected query or a throwing judge ends the pass early. |
| AmbientPass.GroupByConversation | apps/api/src/team-chat-bridge.ts:791-796 | The loop's map holds, for each conversation, exactly its messages in fetched order. |
| AmbientPass.ActionableIsPromoted | apps/api/src/team-chat-bridge.ts:831-843 | If the judged window has a message of a sender configured as actionable, the verdict promotes such a message, whatever the judge would say. |
| AmbientPass.VerdictWarranted | apps/api/src/team-chat-bridge.ts:828-863 | Nothing is decided on no or too recent messages; the last actionable automated sender among the last twenty is acted on, else the judge decides; the promoted message is the first with the asked event, or the newest. |
| AmbientPass.JudgeDecides | apps/api/src/team-chat-bridge.ts:837-862 | With no actionable sender in the window a message is promoted exactly if the judge says so, all are dropped exactly if it declines or is absent, and the turn throws exactly if it throws. |
| AmbientPass.PlanMeans | apps/api/src/team-chat-bridge.ts:805-829 | Which messages a conversation's turn drops unjudged, which it evaluates, and what becomes of each, by sender kind, policy mode and due senders. |
| AmbientPass.RollupDueAgain | apps/api/src/team-chat-bridge.ts:907-940 | A rollup sender is due at first, and again from its rollup hours after its latest judged message on. |
| AmbientPass.PlanDone | apps/api/src/team-chat-bridge.ts:864-885 | The writes of dropping, promoting and ignoring are together those the plan owes, and each other message of a judged batch is ignored only after its trigger's promotion. |
| AmbientPass.AtMostOnePromoted | apps/api/src/team-chat-bridge.ts:865-885 | At most one message per conversation is promoted in a pass, with or without interference. |
| AmbientPass.Conservation | apps/api/src/team-chat-bridge.ts:761-905 | After an undisturbed pass each fetched row is observed, ignored or received as its plan says, at most one per conversation is received, and no other row moved. |
| ExternalOrigin.FindExternalOrigin | apps/api/src/team-chat-bridge.ts:726-752 | On every finite graph the walk ends and returns the origin of the nearest ancestor run that has one within the hop bound, or none if there is none. |
| ExternalOrigin.CycleHasNoOrigin | apps/api/src/team-chat-bridge.ts:735-736 | Stopping at a repeated run loses nothing: no ancestor at any depth has an origin then. |
| ExternalOrigin.OriginIsUnique | apps/api/src/team-chat-bridge.ts:726-752 | The specification admits one answer. |
| LocalStack.LocalStackController.Start | apps/desktop/src/local-stack.ts:355-365 | start() joins the current attempt or queues a new one behind the pending stop, and keeps the scheduler's invariant. |
| LocalStack.LocalStackController.Stop | apps/desktop/src/local-stack.ts:373-390 | stop() voids earlier starts, joins a stop with no start behind it, or else aborts and queues a stop behind everything pending. |
| LocalStack.LocalStackController.Run | apps/desktop/src/local-stack.ts:359 | A body begins only if its ticket is above the void mark. |
| LocalStack.LocalStackController.Settle | apps/desktop/src/local-stack.ts:360-362 | The finally callback forgets only its own promise. |
| LocalStack.BodiesNeverOverlap | apps/desktop/src/local-stack.ts:351-390 | For every sequence of calls and settlements at most one start or stop body is executing. |
| LocalStack.PendingIsTracked | apps/desktop/src/local-stack.ts:381-388 | Every unsettled operation is in the dependency closure of `running` or `stopping`. |
| LocalStack.SupersededStartsNeverRun | apps/desktop/src/local-stack.ts:320-321 | A start whose body had not begun when stop() was called never begins it. |
| LocalStack.RunningIsCurrent | apps/desktop/src/local-stack.ts:355-364 | A non-null `running` is the newest operation and carries a ticket above the void mark. |
| LocalStack.AbortedExactly | apps/desktop/src/local-stack.ts:367-378 | A run in its body has had its docker command aborted exactly if a stop superseded it, and nothing but a superseded run is ever aborted. |
| LocalStack.LatestIntentWins | apps/desktop/src/local-stack.ts:355-390 | Once everything has settled, the last body executed is the newest operation's, matches the last call made, and was not aborted. |
| LocalStack.CallsReturnCurrent | apps/desktop/src/local-stack.ts:355-390 | A call returns the newest operation, of its kind, not superseded and not settled, and adds at most one. |
| LocalStack.NeverStuck | apps/desktop/src/local-stack.ts:358-388 | While an operation is pending, the oldest pending one can begin, end or settle. |
| ThreadDispatch.DispatchDirect | apps/api/src/thread-target.ts:694-811 | In terms of status and trigger: the message steers the bot's first queued, leased, running or taken-over run that is not a routine's, webhook's or intro's; failing that it answers all waiting runs or conflicts; failing that it is held, without a target, behind the first run in flight; it starts a run only if none is in flight. A voice turn conflicts with any run in flight. |
| ThreadDispatch.ServedExactly | apps/api/src/thread-target.ts:708-786 | Each of these outcomes is taken exactly under its condition. |
| ThreadDispatch.SortRuns | apps/api/src/thread-target.ts:872-913 | The first group loop sorts each target bot's runs as the direct rule needs, or stops because some target conflicts. |
| ThreadDispatch.DispatchGroup | apps/api/src/thread-target.ts:864-959 | It conflicts exactly when the direct branch conflicts for some target, and otherwise makes the direct branch's choice for every target, in order, with the same meaning in terms of status and trigger. |
| ThreadDispatch.VoiceDiffers | apps/api/src/thread-target.ts:702-707 | The group dispatcher's answer, which ignores voice, is what the direct branch gives every target of a voice turn exactly when no target has active runs or some target's ask is left unanswered with nothing to steer. |
| ThreadDispatch.VoiceConflictsAlone | apps/api/src/thread-target.ts:702-707 | With one running turn of the user's, the group steers it while the direct branch of a voice turn conflicts. |
| ThreadReplay.CommitFacts | apps/api/src/thread-target.ts:960-1006 | What a first send leaves: its message by nonce, its last event with the listed runs, and rows for all answered runs. |
| ThreadReplay.SendAnswers | apps/api/src/thread-target.ts:914-1006 | A first send inserts one message, one event and as many runs from that message as targets are to start one, and answers, target by target, with the ids of all answered runs, the steered run or the new run; run and task are the first one's, and the event lists them unless it is a direct steering. |
| ThreadReplay.ReplayIsOriginal | apps/api/src/thread-target.ts:163-228 | A repeat returns the original task, run, seq and run ids in order exactly while those run rows remain and, for a direct steering, no run names the message as its source. |
| ThreadReplay.RepeatCreatesNothing | apps/api/src/thread-target.ts:626-632 | Under that condition a repeat leaves the database as it is, whatever it would have dispatched. |
| ThreadReplay.SendGrows | apps/api/src/thread-target.ts:638-992 | A send keeps ids unique and references valid, appends only, and what it appends belongs to its own message. |
| ThreadReplay.RepeatAfterSends | apps/api/src/thread-target.ts:631-632 | After any number of further sends of any kind, a repeat answers as the first time and creates nothing. |
| ThreadPages.WithoutPeerRunsIsPointwise | apps/api/src/thread-message-pages.ts:96-125 | Filtering a page's rows through one batched query decides each row by itself, so pages can be joined. |
| ThreadPages.VisibleMeans | apps/api/src/thread-message-pages.ts:102-124 | A row is hidden exactly if a peer's message that does not report to the user started its run and it has neither text nor an ask nor a receipt. |
| ThreadPages.LoadPage | apps/api/src/thread-message-pages.ts:50-79 | The rescan loop ends; the page is a contiguous piece of the thread, never larger than the page size and full unless it is the oldest, and everything skipped above it has nothing visible and substantive. |
| ThreadPages.LoadAll | apps/api/src/thread-message-pages.ts:81-94 | Returns exactly the ascending history. |
| ThreadPages.FollowOlder | apps/api/src/thread-message-pages.ts:50-79 | Following olderCursor to the end yields every visible substantive row once, in order, and every visible row when receipts are kept. |
| ArtifactPages.FrozenPaging | apps/api/src/artifacts.ts:263-339 | While rows dated after `asOf` come and go between pages, following the cursor ends and yields each family visible at `asOf` once, by its latest version then, newest first. |
| ArtifactPages.PageMeans | apps/api/src/artifacts.ts:268-338 | A page holds no more than asked for (thirty by default, sixty at most), is full if a cursor follows, and shows only the actor's own rows of the bot asked for up to the listing's time, each the highest version of a family whose versions it counts. |
| ArtifactPages.SortedBelow | apps/api/src/artifacts.ts:279 | Restarting below the cursor's row resumes the listing exactly after it. |
| ArtifactPages.PagingNeverTurns | apps/api/src/artifacts.ts:263-339 | Whatever happens to the table between pages, the items come in strictly descending order. |
| ArtifactPages.UntouchedFamilyOnce | apps/api/src/artifacts.ts:275-279 | Whatever else is deleted or inserted between pages, a family whose own rows dated at or before `asOf` are left alone is yielded exactly once, with its latest version and count, by a reader who reaches the end. |
| ArtifactPages.DeletionsEnd | apps/api/src/artifacts.ts:275-279 | While rows dated at or before `asOf` are only deleted, following the cursor reaches the end. |
| ArtifactDeletion.ArtifactTable.DeleteRootIfChildless | apps/api/src/artifacts.ts:407-442 | The root goes, blob first, exactly when no row points to it and its blob can be removed; otherwise nothing changes. |
| ArtifactDeletion.ArtifactTable.Publish | packages/db/src/artifact-versions.ts:6-30 | A new version gets a higher number than every other in its slot and joins a family only of its own owner's; a version the family already has is refused. |
| ArtifactDeletion.ArtifactTable.Turn | apps/api/src/artifacts.ts:383-404 | One turn of the loop is the iteration the termination results are about: it deletes at most one row, blob first. |
| ArtifactDeletion.ArtifactTable.DeleteFamily | apps/api/src/artifacts.ts:371-405 | From every table the writers can produce the loop ends; each row follows its blob, the root follows every child, success leaves no family row, and failure is exactly a blob that cannot be removed. |
| ArtifactDeletion.TurnProgress | apps/api/src/artifacts.ts:392-403 | Each iteration deletes a row after its blob, the root after every child, or ends the loop with the right answer. |
| ArtifactDeletion.DeletionEndsExactly | apps/api/src/artifacts.ts:383-404 | On any table whatever, the loop ends exactly when no other owner's version hangs under the owner's root or a blob removal fails first. |
| ArtifactDeletion.EveryDeletionEnds | apps/api/src/artifacts.ts:376-404 | Tables kept by publishing and deleting have no such version, so every owner's deletion ends, within one iteration more than the family's rows. |
| ArtifactDeletion.LoopEnds | apps/api/src/artifacts.ts:383-404 | In that case it ends within one iteration more than the owner has family rows. |
| Routines.UpdatedMeans | apps/api/src/router.ts:2620-2685 | An update is accepted exactly when no guard refuses it; an accepted one writes the given fields, keeps the others, and clears, arms, recalculates or keeps the next run by named conditions; a refusal names a guard that holds. |
| Routines.PlanUpdate | apps/api/src/router.ts:2620-2685 | The handler's code reaches such a decision: on success the row is merged, rescheduled as stated and consistent in itself, on failure the named guard failed. |
| Routines.CreatedMeans | apps/api/src/router.ts:2562-2609 | A draft is accepted exactly if it has a trigger, mixes no one-shot, is no active one-shot and its schedule can be computed; it is then stored for the actor and queued exactly if active and recurring. |
| Routines.ScheduledMeans | packages/adapters/src/schedule-tools.ts:222-242 | Scheduling from chat makes one active routine for a future one-shot time or a computable cron, queued for that time. |
| Routines.RemovedMeans | apps/api/src/router.ts:2724-2731 | Only a routine of the actor's space is removed, with its wakeup. |
| Routines.FiredMeans | packages/adapters/src/executor.ts:1018-1039 | A due wakeup dates the run, ends a one-shot, and sets a recurring routine and its wakeup for the next time, or ends it if there is none. |
| Routines.RoutineTable.Create | apps/api/src/router.ts:2562-2609 | Creating keeps rows and queue in agreement, and a refusal changes nothing. |
| Routines.RoutineTable.Update | apps/api/src/router.ts:2611-2722 | Updating keeps rows and queue in agreement even though the queue is touched only on some paths. |
| Routines.RoutineTable.Remove | apps/api/src/router.ts:2724-2732 | Removing takes the wakeup with the row. |
| Routines.RoutineTable.Schedule | packages/adapters/src/schedule-tools.ts:222-242 | Scheduling from chat, the only way to make an active one-shot, keeps the agreement. |
| Routines.RoutineTable.Wake | packages/adapters/src/executor.ts:982-1108 | Firing a queued wakeup re-arms a recurring routine, retires a one-shot, restores row and job when the run cannot be queued, and keeps the agreement. |
| Routines.RunKeeps | apps/api/src/router.ts:2562-2732 | Over all sequences: nextRunAt is set exactly when the routine is active with a schedule, the wakeup is queued exactly then for that time, and a recurring time was computed from the present schedule. |
| Routines.OverlapKeeps | apps/api/src/router.ts:2612-2720 | With updates split into read and write and overlapping anything, the agreement holds as long as no row is written between its reading and writing. |
| Routines.FireBetween | apps/api/src/router.ts:2612-2698 | If a wakeup fires between an update's read and write, rows and queue agree afterwards exactly when the update switches the routine off, takes its schedule away, or gives an active routine a new recurring schedule. |
| Routines.RenamedWhileFiring | apps/api/src/router.ts:2612-2698 | A rename that overlaps a firing leaves the row at the old time and the queue at the next. |
| Routines.OneShotFiresOnce | apps/api/src/router.ts:2636-2648 | A routine that has run is never again waiting as a one-shot, however it is edited. |
| DesktopUpdates.PhaseMoves | apps/desktop/src/auto-update.ts:94-189 | Only an empty feed met while checking freezes the updater, only a download makes it ready, an offer is lost only to a failure or to a withdrawal before the download, a failure returns to idle exactly when the network was down and no install was begun, and progress counts only for an offer or a download, to the nearest percent. |
| DesktopUpdates.FeedMeans | apps/desktop/src/auto-update.ts:289-325 | An offer with a version is shown and its download begun unless one is under way or ready; a download with a version is ready; either without its version is a failure. |
| DesktopUpdates.DownloadMeans | apps/desktop/src/auto-update.ts:384-397 | A download runs exactly for an offer still there once the updater is, and starts at zero percent. |
| DesktopUpdates.DesktopUpdateController.Check | apps/desktop/src/auto-update.ts:331-359 | A call joins a check in flight; otherwise it starts one exactly from the frozen phase by hand, or at rest when the interval has passed or a retry has forgotten it; only leaving the frozen phase changes the state, and no check of the feed is made yet. |
| DesktopUpdates.DesktopUpdateController.ResumeRunCheck | apps/desktop/src/auto-update.ts:360-364 | The feed is asked exactly when the second look still allows it. |
| DesktopUpdates.DesktopUpdateController.ResumeInstallation | apps/desktop/src/auto-update.ts:413-424 | The installer is called exactly in the ready phase with no install begun; the phase and the offer never change; an install stays begun exactly if the installer does not refuse. |
| DesktopUpdates.NextKeeps | apps/desktop/src/auto-update.ts:246-425 | Every atomic stretch of the controller and every feed event keeps the invariant. |
| DesktopUpdates.EveryRun | apps/desktop/src/auto-update.ts:256-425 | In every run an offer has a version, the percentage is shown exactly while downloading (0 to 100) or ready (100), feed checks are spaced and never made over an offer, installs are one at a time, and ready is never left. |
| DesktopUpdates.SpacingExactly | apps/desktop/src/auto-update.ts:198-209 | Over all runs, feed checks can follow each other at two times exactly when they are the interval apart or a retry left the frozen phase in between. |
| DesktopUpdates.NextCheckExactly | apps/desktop/src/auto-update.ts:341-364 | From every reachable resting state that has checked before, a check goes through exactly when the interval has passed or a retry has left the frozen phase since. |
| DesktopUpdates.RetryIgnoresInterval | apps/desktop/src/auto-update.ts:348-359 | A retry after an empty feed checks it again a millisecond later. |
| DesktopUpdates.FrozenUntilAsked | apps/desktop/src/auto-update.ts:348-359 | The frozen phase is left only by a check called by hand at that moment or since it froze, and never where updates are unsupported. |
| DesktopUpdates.ChecksOnlyOnResume | apps/desktop/src/auto-update.ts:341-364 | No other step asks the feed. |
| DockerLines.SplitIsJoinInverse | apps/desktop/src/docker-cli.ts:169 | Splitting loses nothing and leaves no separator in a part. |
| DockerLines.SplitIsUnique | apps/desktop/src/docker-cli.ts:169 | It is the only such way to write the text. |
| DockerLines.RenderIsFinalRendering | apps/desktop/src/docker-cli.ts:160-164 | A reported line is what follows the last carriage return, without trailing white space. |
| DockerLines.RenderedExactly | apps/desktop/src/docker-cli.ts:160-171 | Every line that does not render empty is reported, in order, and no other. |
| DockerLines.DockerRun.OnData | apps/desktop/src/docker-cli.ts:166-172 | Each chunk reports exactly the lines it completes and keeps the rest. |
| DockerLines.DockerRun.OnClose | apps/desktop/src/docker-cli.ts:178-182 | By close each stream has reported the non-empty lines of its whole text, in order, however it was cut; the first outcome is kept. |
| Handshake.TailSuffices | apps/web/vite.config.ts:238-240 | The last three bytes are enough to find a boundary across chunks. |
| Handshake.Forwarder.ForwardHandshake | apps/web/vite.config.ts:230-253 | After each chunk the verdict is the one a look at all bytes so far gives. |
| Handshake.ReleasedAtFirstBoundary | apps/web/vite.config.ts:227-254 | The head is released at the first chunk by which CRLF CRLF has arrived, with all bytes so far, and only within 64 KiB and if the filter accepts. |
| Handshake.WithoutBoundary | apps/web/vite.config.ts:233-241 | Without a boundary the proxy buffers up to 64 KiB and destroys the sockets beyond. |

## Left out

- One event per protocol model: rows and nonces of different events are disjoint, so batches, their order and the loops over them are one choice of the environment.
- The bridge is a step relation on values, not a class: every await is an interleaving point, and a method could not say which other steps run in between. Only its ambient pass and origin search are methods.
- `Date.now()` and the update that uses it are one step; `sendUserMessage` is atomic and idempotent per thread and nonce; nonces are injective in their arguments.
- The judge's free text is taken to differ from the ownership reasons, and provider handles from the bridge's own markers.
- A run that has ended stays as it ended: the transition table would let a failed run be queued again, but no code does.
- Deleting messages, runs or conversations while the protocol runs, delegated replies, transcript mirroring and archiving are not modelled.
- A run created but not linked (crash, or a retry between the two) is in the protocol; exclusion is stated for linked rows only.
- TeamChatOwnership.OwnershipExclusion: is stated under hypotheses the code does not enforce; TeamChatRaces shows that each is needed.
- AmbientPass.AmbientEvaluator.EvaluateAmbient: takes the fetched rows and settings as arguments; the query's order among equal times, prompts and schema parsing are left out, and a rejected query is taken to have written nothing.
- LocalStack: `run` and `runStop` are opaque bodies that do not reject; the docker commands, probes and the state reducers are left out.
- ThreadDispatch: artifact, mention and quote handling are left out; the group loop's error for an active run that is neither waiting nor steerable cannot occur with the active statuses, and active runs come in one list order for both branches.
- ThreadReplay: notification and re-enqueueing are left out, and a send is one transaction.
- ThreadPages.LoadPage: the `around` window is not modelled.
- ArtifactPages: cursor encoding is an injective pair of functions, and only its scope check is modelled.
- ArtifactDeletion.ArtifactTable.DeleteFamily: no rows are inserted while it runs, and rows that vanish under it are not modelled; publishing is one transaction, and spaces and users are not deleted.
- Routines.RoutineTable.Update: the bot lookup after the write and the queue calls succeed; a failure there would leave row and queue apart.
- Routines.RunKeeps: a row write and the queue call after it are one step in every operation, and so are the claim of a wakeup and its restoring.
- Routines.RoutineTable.Wake: thread and bot exist.
- DesktopUpdates: classification of error text is a parameter, the cached updater promise is left out, clock times are positive and do not go back between the two looks of one check, and a promise's `finally` runs with its last step.
- DockerLines.DockerRun.OnData: text is already decoded, so a character cut across chunks is not modelled, nor is the order of lines between the two streams.
- Handshake: header rewriting is a parameter.
- Voice calls, MCP, connections, credentials, Electron windows and mobile screens are not part of this project.
