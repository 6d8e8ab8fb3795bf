# Verified model of the notification pipeline

This project models how the service turns a trigger request or a broadcast into deliveries, and the
data-structure cores the pipeline rests on, and proves what they keep. It is written in Dafny 4.11;
`dafny verify dfyconfig.toml` checks all of it.

## What is modelled

**The dispatch protocol** (`workflow.dfy`, `dispatch*.dfy`, `handlers.dfy`, `triggering.dfy`,
`broadcast.dfy`, `digest.dfy`). `Dispatch` is a state machine over the notification collection, the task
queue and the Redis digest lists. One action is one store, queue or list operation of one handler, so a
run is an arbitrary interleaving of trigger requests, broadcasts, and trigger, delay, digest and delivery
handlers; failures, re-runs, lost tasks, expiring lists and lost status writes are choices of the action.
`DispatchAlways` is what every run keeps; `DispatchProofs` and `DispatchSafety` add what runs keep in which no
digest handler fails after DEL and no list expires; `DispatchLimits` says exactly what happens otherwise,
`DispatchFates` what becomes of notifications that are left undelivered, and `DispatchRequests` what requests
and broadcasts come to when nothing fails.
`Handlers`, `Triggering` and `Broadcasts` model the same handlers as the imperative code they are, proved
against functions of their inputs; `DispatchRuns` ties the two views together for an entry left to itself.
`Digests` splits one digest list further, into RPUSH, LRANGE and DEL, and accounts for every push.

**The delivery handler** (`delivery.dfy`, `ratelimit.dfy`). One run's decision order, the messages it
sends and the one status or retry it ends in; whole chains of runs and retries under an arbitrary backoff
policy; and the fixed-window rate limiter it consults, over arbitrary call traces and TTL sweeps.
`DispatchDeliveries` (`dispatch_delivery.dfy`) shows that its runs are the dispatch machine's delivery actions.

**Preferences** (`channels.dfy`, `preferences.dfy`, `preference_race.dfy`, `backfill.dfy`). The channel
table at any length, the precedence shared by reading, seeding and delivery, the endpoints over stored
rows, concurrent upserts as probe and commit under the unique index, and the startup backfill.

**The subscriber upsert** (`dotted.dfy`, `documents.dfy`, `subscriber_update.dfy`,
`subscriber_history.dfy`). The compilation of a nested document into dotted updates, what those updates
do to a stored document, and what any history of upserts, presence writes and token removals leaves.

**Smaller cores** (`engine.dfy`, `feed.dfy`, `telegram.dfy`, `hub.dfy`). Condition evaluation, the in-app
feed and its badge, UTF-16 truncation, and the WebSocket hub's in-place room lists.

## What the proofs found

- The digest handler deletes its list before it loads the workflow
  (`internal/worker/digest_handler.go:49-67`). When that load fails, the re-queued task can meet the next
  batch's own task, and one step of one notification is delivered twice. A step is *exposed* when some
  evaluation of its workflow stops at a digest step that leads to it. At most one delivery, over all runs, is
  guaranteed for a step if and only if it is not exposed (`DispatchLimits.DeliversOnceIffUnexposed`); for a
  workflow without conditions exposure can be read off its definition
  (`DispatchLimits.ExposedWithoutConditions`). The second delivery can overwrite "sent" with "skipped":
  with distinct channels, a status row is stable if and only if its step is not exposed, and the in-app feed if
  and only if no in-app step is (`DispatchLimits.RowSettlesIffUnexposed`,
  `DispatchLimits.FeedIsStableIffUnexposed`). In runs in which that load does not fail, and no digest list
  expires before its task fires, each step is delivered at most once for all definitions
  (`DispatchSafety.AtMostOnceDelivery`).
- A push between a handler's LRANGE and its DEL is lost, and nothing else is
  (`Digests.NothingLostIffNoGapPush`).
- Of a digest batch only the first notification goes on (`internal/worker/digest_handler.go:69-77`). In runs
  in which no digest handler fails after DEL and no list expires early, no step after the digest is ever started
  for another member, and its rows for the later channels stay pending
  (`DispatchFates.BatchMembersStayUndelivered`).
- A digest list that is not empty while no task is in charge of it is stranded: every later push sees a length
  above one and schedules nothing. It stays so until it expires (`DispatchFates.StrandedForGood`), and ids that
  only stranded lists hold are never delivered, expiry or not (`DispatchFates.StuckStaysUndelivered`). A failed
  enqueue after a push of length one, or the ignored error of DEL, strands the list exactly when nobody else is
  in charge of it (`DispatchFates.LostScheduleStrands`, `DispatchFates.FailedDelStrands`).
- A trigger request that meets a duplicate or a failing insert leaves the notifications created before it
  without a trigger task (`Triggering.Trigger`); a broadcast page whose enqueue fails does the same. They are
  never delivered afterwards, whatever runs (`DispatchAlways.OrphansStayUndelivered`): dispatch is at most
  once, not exactly once.
- A row can be written if and only if no earlier row has its channel (`Workflows.WritableIffFirst`), so the
  later rows of a repeated channel are pending in every state of every run
  (`DispatchAlways.RepeatedRowsStayPending`).
- A workflow delivery that has ended has its status recorded exactly once, unless one of four things happened
  on the way, and then not at all: the enqueue of a retry failed, the step index had gone stale, the status
  write failed, or a lookup or the provider kept failing until the queue archived the task
  (`Deliveries.RecordedOnceIff`).
- Values read from the database have the driver's own array and document types below the top level, as
  `internal/repository/subscriber_repo.go:113-136` relies on, while the conditions look for plain lists and
  maps. A stored list therefore never matches: `in` never holds for it and `nin` always does
  (`Engine.StoredListsNeverMatch`); and a condition on subscriber data sees one key deep only
  (`Engine.FieldsAtRunTime`).
- A rate limit of n lets 2n deliveries through within one window's length, and never more
  (`RateLimits.TwiceIsReached`, `RateLimits.AnySpanPassesAtMostTwice`).
- Steps resumed after a delay or digest are not re-checked for conditions or for being enabled, and any
  later control-type step ends the run; the model follows the code (`Workflows.DeliveredExact`).
- The comment on `UpdateChannels` speaks of six channel flags; the table has seven. The model is over a
  table of any length.

## Model

| member | source | states |
|---|---|---|
| `Workflows.StopAt` | internal/worker/trigger_handler.go:112-147 | the first position whose step is not skipped, is a delay or digest and has its configuration: every position before it does not arm, and it does |
| `Workflows.NextControl` | internal/worker/tasks.go:113-119 | the first control-type step from a position on, configured or not |
| `Workflows.DirectExact` | internal/worker/trigger_handler.go:112-153 | the trigger loop delivers exactly the non-skipped channel steps before the first armed control step, in increasing order |
| `Workflows.FollowingExact` | internal/worker/tasks.go:113-133 | the resumed loop delivers exactly the steps up to the next control-type step, in increasing order |
| `Workflows.DeliveredExact` | internal/worker/trigger_handler.go:108-153 | trigger loop and resumed loop together deliver each step at most once: the surviving channel steps before the first surviving, configured delay or digest step, then every channel step up to the next delay or digest step, skipped or not |
| `Workflows.RowsAreChannelSteps` | internal/worker/tasks.go:91-103 | as many rows as channel steps, repeated channels included |
| `Workflows.RowsInStepOrder` | internal/worker/tasks.go:91-103 | each channel step has its row, behind those of the channel steps before it |
| `Workflows.PendingRows` | internal/worker/tasks.go:91-103 | one pending row for each channel step and none for control steps |
| `Workflows.BuildChannelDeliveries` | internal/worker/tasks.go:91-103 | the loop builds exactly the pending rows |
| `Workflows.DistinctChannelsGiveDistinctRows` | internal/worker/tasks.go:91-103 | a workflow without repeated channels gets rows of distinct channels |
| `Workflows.SetStatus` | internal/repository/notification_repo.go:242-255 | a status write keeps the rows, their order and channels, and changes no row of another channel |
| `Workflows.SetStatusExact` | internal/repository/notification_repo.go:242-255 | with distinct channels a status write changes exactly the row of its channel |
| `Workflows.WritableIffFirst` | internal/repository/notification_repo.go:250-253 | some status write can change a row if and only if no earlier row has its channel |
| `Workflows.RepeatedChannelWritesFirstRow` | internal/repository/notification_repo.go:250-253 | with a repeated channel, a status write leaves a later row of it alone |
| `DispatchProofs.StepKeepsInv` | internal/worker/trigger_handler.go:48-157 | every operation of every handler, except a digest handler that fails after DEL and the early expiry of a list, keeps: no delivery can be started by two items, started deliveries are in the history once, one item is in charge of a non-empty digest list, deliveries that may happen find their row pending |
| `DispatchProofs.RunKeepsInv` | internal/worker/trigger_handler.go:48-157 | that invariant holds after every run without those two, for all definitions |
| `DispatchProofs.ReactionPassesOn` | internal/worker/trigger_handler.go:112-153 | every operation but the re-queue of a digest handler that failed after DEL passes on only rights its item held, or rights on a new id, and never the same right twice |
| `DispatchProofs.OthersKeep` | internal/worker/trigger_handler.go:219-249 | another item gains a right only when a push joins the list it is in charge of |
| `DispatchProofs.TokensAfter` | internal/worker/trigger_handler.go:226-249 | apart from that re-queue, scheduling only at list length 1 keeps at most one item in charge of each digest list |
| `DispatchSafety.AtMostOnceDelivery` | internal/worker/trigger_handler.go:73-157 | over every run in which no digest handler fails after DEL and no digest list expires early, with all other failures and re-runs, each (notification, step) gets at most one attempt-0 delivery task, and never two delivery tasks at once |
| `DispatchSafety.SettledRowStays` | internal/worker/delivery_handler.go:114-200 | in such runs no operation changes a row that has left pending, in a workflow without repeated channels |
| `DispatchSafety.SteadyRowsSettleOnce` | internal/worker/delivery_handler.go:114-200 | over the rest of any such run, a row that has left pending never changes again |
| `DispatchAlways.StepKeepsAlways` | internal/worker/trigger_handler.go:48-157 | every operation of every handler, whatever fails or expires, keeps: items fit their workflows, a notification being collected is known to its collector only, one trigger task per notification, the unique index, rows match their workflow and the later rows of a repeated channel are pending |
| `DispatchAlways.RunKeepsAlways` | internal/worker/trigger_handler.go:48-157 | those hold after every run, for all definitions |
| `DispatchAlways.ReactionTraces` | internal/worker/trigger_handler.go:112-153 | an operation passes an id on only from the item it works on or the list the item reads, and starts deliveries of its own notification only |
| `DispatchAlways.UniqueAfter` | internal/repository/indexes.go:56 | no operation stores two notifications of one environment, transaction and subscriber |
| `DispatchAlways.TriggeredOnce` | internal/service/trigger_service.go:82-125 | over every run, no notification id is in two trigger tasks, each trigger task maps subscribers to distinct ids, no (environment, transaction, subscriber) has two notifications |
| `DispatchAlways.DeliveriesHaveRows` | internal/worker/tasks.go:91-103 | over every run, every queued delivery is of a channel step of its workflow, within the retry bound, and has a status row |
| `DispatchAlways.RepeatedRowsStayPending` | internal/repository/notification_repo.go:242-255 | in every run, a row with an earlier row of its channel is pending |
| `DispatchAlways.NoRebirth` | internal/service/trigger_service.go:82-106 | an id that is gone is never stored again, and keeps its workflow |
| `DispatchAlways.AbandonedStaysUndelivered` | internal/service/trigger_service.go:86-106 | an issued id that no item carries and no digest list holds is never delivered again, in any continuation of any run |
| `DispatchAlways.OrphansStayUndelivered` | internal/service/trigger_service.go:97-102 | the notifications a failed trigger request or a failed broadcast page leaves behind are never delivered, whatever runs later |
| `DispatchRuns.StepLoopDelivers` | internal/worker/trigger_handler.go:112-153 | left to itself (only this item acts, every operation succeeds) the step loop enqueues exactly the direct steps, in order, and ends as the delay task, on the digest list, or done |
| `DispatchRuns.ResumeDelivers` | internal/worker/tasks.go:113-133 | left to itself a resumed workflow enqueues exactly the following steps, in order |
| `DispatchRuns.ControlFires` | internal/worker/digest_handler.go:36-80 | a delay task, and a digest task through scheduling, LRANGE and DEL, resume the workflow after their step, the digest with the first id of its list |
| `DispatchRuns.UninterruptedRun` | internal/worker/trigger_handler.go:106-153 | left to itself, through a delay or an empty digest list, an entry of a trigger task delivers exactly the steps DeliveredExact spells out, each as a queued first attempt |
| `DispatchLimits.UnexposedDeliversOnce` | internal/worker/digest_handler.go:49-77 | a step no evaluation leads to through a digest is delivered at most once per notification, in every run, whatever fails or expires |
| `DispatchLimits.BareStep` | internal/worker/digest_handler.go:36-80 | as far as an unexposed step is concerned, each action of any run is matched by at most two actions without failures after DEL |
| `DispatchLimits.ExposedWithoutConditions` | internal/engine/workflow_engine.go:20-43 | for a workflow without conditions exposure is read off the definition: the first enabled configured control step is a digest, and the step lies before the next control step |
| `DispatchLimits.DeliversOnceIffUnexposed` | internal/worker/digest_handler.go:45-67 | a step is delivered at most once per notification, over all runs, if and only if no evaluation stops at a digest that leads to it |
| `DispatchLimits.AtMostOnceIffNothingExposed` | internal/worker/digest_handler.go:45-67 | nothing at all is delivered twice if and only if no step is exposed |
| `DispatchLimits.RowSettlesIffUnexposed` | internal/worker/delivery_handler.go:176-195 | with distinct channels, a step's row stays as settled, over all runs, if and only if the step is not exposed |
| `DispatchLimits.FeedIsStableIffUnexposed` | internal/worker/delivery_handler.go:499-505 | with distinct channels, nothing delivered in-app leaves the feed before its retention ends, over all runs, if and only if no in-app step is exposed |
| `DispatchLimits.ExposedDeliversTwice` | internal/worker/digest_handler.go:49-67 | for every exposed step, a run that delivers it twice to one notification |
| `DispatchFates.UnstartedRowsArePending` | internal/worker/tasks.go:91-103 | over every run, with distinct channels, the row of a step that was never started for its notification is pending |
| `DispatchFates.UnclaimedStaysUnstarted` | internal/worker/tasks.go:113-133 | what nobody has the right to start is never started, over the rest of any run in which no digest handler fails after DEL and no list expires early |
| `DispatchFates.BatchMembersStayUndelivered` | internal/worker/digest_handler.go:69-77 | in such runs, once a digest list is read, no later step is ever started for a member other than the first, and its rows there stay pending |
| `DispatchFates.StrandedStays` | internal/worker/trigger_handler.go:224-249 | every operation but its expiry leaves a stranded list (not empty, nobody in charge) stranded, and only appends to it |
| `DispatchFates.StrandedForGood` | internal/worker/trigger_handler.go:224-249 | so does every continuation of every run, until the list expires |
| `DispatchFates.StuckStaysUndelivered` | internal/worker/trigger_handler.go:224-249 | ids held by stranded lists only are never delivered, in any continuation of any run, expiry included |
| `DispatchFates.LostScheduleStrands` | internal/worker/trigger_handler.go:226-245 | a failed enqueue after a push of length one strands the list, for good, exactly when no other item is in charge of it |
| `DispatchFates.FailedDelStrands` | internal/worker/digest_handler.go:45-77 | so does a failed DEL, whose error the handler ignores |
| `DispatchFates.FailedEnqueueCosts` | internal/worker/trigger_handler.go:112-153 | a failed enqueue of a delivery costs exactly that delivery; a failed one, or a failed push, at the step that takes over costs the rest of the run |
| `DispatchFates.FailedResumeCosts` | internal/worker/tasks.go:113-133 | a failed enqueue after a delay or digest costs exactly that delivery |
| `DispatchFates.ExpiredIsGone` | internal/repository/indexes.go:57 | a notification whose retention has ended is never stored again, in any continuation of any run |
| `DispatchRequests.CallCompletes` | internal/service/trigger_service.go:82-125 | a request whose recipients all lack a notification of its transaction creates a pending one for each and hands all of them, each under its own id, to one trigger task |
| `DispatchRequests.CallStops` | internal/service/trigger_service.go:86-102 | a request stops at the first recipient that has one: those before it keep theirs, and nothing is handed out |
| `DispatchRequests.RequestAllOrNothing` | internal/service/trigger_service.go:82-125 | each operation of a request, whatever it meets, ends it with nothing handed out, moves on by one recipient, or hands out all of them |
| `DispatchRequests.PageCompletes` | internal/worker/broadcast_handler.go:82-125 | a broadcast page creates a notification for exactly those of its subscribers that lack one and are not refused, passes over the others, and queues one trigger task with exactly the created ones, or none if there are none |
| `DispatchRequests.BroadcastCompletes` | internal/worker/broadcast_handler.go:72-128 | over any pages: exactly their subscribers end with a notification; those that lacked one are each in exactly one queued trigger task under a new id; nothing else changes |
| `DispatchRequests.BroadcastReruns` | internal/worker/broadcast_handler.go:83-125 | a broadcast that fails within a page is re-run from the start: everyone on its pages ends with a notification, and those created by the failed attempt but not handed out never are |
| `DispatchRequests.EntriesDeliver` | internal/worker/trigger_handler.go:73-157 | the entries of a trigger task, left to themselves, deliver for each entry exactly the steps of its own run, to its own notification |
| `DispatchRequests.RequestDelivers` | internal/service/trigger_service.go:82-125 | end to end: when nothing fails, a request delivers to each recipient's own notification exactly the steps its run delivers |
| `DispatchDeliveries.RunIsAction` | internal/worker/delivery_handler.go:70-201 | each run of the delivery handler on a queued delivery, whatever it meets, is one action of the machine: the same rows, the same next attempt, nothing else |
| `DispatchDeliveries.SettleIsRun` | internal/worker/delivery_handler.go:70-201 | every status the machine lets a delivery end in is written by some run |
| `DispatchDeliveries.QueuedIsLive` | internal/worker/delivery_handler.go:274-279 | in every run of the machine, no queued delivery is dead-lettered as stale while its workflow has the steps it was dispatched for |
| `Handlers.EnqueueDigest` | internal/worker/trigger_handler.go:203-250 | pushes the notification onto the list of its environment, workflow, step, subscriber and digest key, and schedules the digest task exactly when the list was empty; a failed push does neither |
| `Handlers.EnqueueDelay` | internal/worker/trigger_handler.go:179-201 | requests exactly the delay task of the step |
| `Handlers.LoopRequests` | internal/worker/trigger_handler.go:112-153 | with c the first surviving, configured delay or digest step: the attempt-0 deliveries of the surviving channel steps before c, in order, then the delay task, or the digest task if the list was empty; only that list grows, by the notification |
| `Handlers.StepLoop` | internal/worker/trigger_handler.go:112-153 | requests exactly the direct deliveries and then the task of the step it stops at; the lists change only by that step's push |
| `Handlers.ProcessTrigger` | internal/worker/trigger_handler.go:48-157 | errs only before enqueueing; otherwise every entry whose lookups succeed is processed once, in some order, and nothing else is requested |
| `Handlers.EnqueueFollowingDeliveries` | internal/worker/tasks.go:113-133 | requests exactly the deliveries after a control step up to the next one; a stale index requests none |
| `Handlers.ProcessDelay` | internal/worker/delay_handler.go:22-52 | errs only before enqueueing anything; otherwise requests exactly the following deliveries |
| `Handlers.ProcessDigest` | internal/worker/digest_handler.go:36-80 | the list is gone once read, whether or not the workflow then loads; the first id resumes the workflow |
| `Handlers.OwnListOnly` | internal/worker/trigger_handler.go:208-219 | one subscriber's step loop depends on no other subscriber's digest lists |
| `Triggering.ResolveRecipients` | internal/service/trigger_service.go:159-198 | a subscriber is a recipient exactly when a topic target's topic has it or another target names it, each once, in order of first mention; it fails exactly when some lookup fails |
| `Triggering.RecipientsExact` | internal/service/trigger_service.go:159-198 | the same of the specified list, for every directory and every list of targets |
| `Triggering.EarlierTargetsFirst` | internal/service/trigger_service.go:162-193 | the recipients of the first targets come first |
| `Triggering.FreeIffNoTwin` | internal/repository/indexes.go:56 | a create is refused exactly for a subscriber the store refuses or when another notification has its environment, transaction and subscriber |
| `Triggering.FirstOccurrencesExact` | internal/service/trigger_service.go:176-193 | the de-duplicated list has the same members, no repeats, in order of first occurrence |
| `Triggering.Notifications.Create` | internal/repository/notification_repo.go:21-31 | a create fails exactly on a store error or a duplicate of environment, transaction and subscriber, and then changes nothing |
| `Triggering.CreateAll` | internal/service/trigger_service.go:86-106 | creates exactly the recipients before the first blocked one, under fresh ids |
| `Triggering.Trigger` | internal/service/trigger_service.go:60-131 | succeeds with one trigger task mapping exactly the recipients to fresh ids, or stops at the first blocked recipient, leaving the earlier ones created and untriggered |
| `Triggering.NewIdsInjective` | internal/service/trigger_service.go:104-106 | distinct recipients get distinct ids |
| `Broadcasts.CursorAdvances` | internal/repository/subscriber_repo.go:273-294 | moving the cursor to the last of a page leaves exactly the subscribers after it |
| `Broadcasts.PagesCover` | internal/worker/broadcast_handler.go:72-81 | the walk takes ceil(n/100) non-empty pages of at most 100 that concatenate to the audience |
| `Broadcasts.FreshOfExact` | internal/worker/broadcast_handler.go:95-103 | a page creates notifications for exactly its subscribers without one |
| `Broadcasts.CreatePage` | internal/worker/broadcast_handler.go:83-104 | creates one notification per fresh subscriber of the page and passes over the rest |
| `Broadcasts.WalkAudience` | internal/worker/broadcast_handler.go:72-126 | terminates; the store and the requested tasks are those of the pages done, all of them unless it failed; it fails exactly when the next page cannot be read or the last enqueue was refused, and no earlier one was |
| `Broadcasts.Broadcast` | internal/worker/broadcast_handler.go:42-129 | a missing or inactive workflow does nothing; otherwise the walk, and a failure leaves a store from which a re-run continues |
| `Broadcasts.PageTasksCover` | internal/worker/broadcast_handler.go:106-125 | the pages' trigger tasks hand out each created notification exactly once |
| `Broadcasts.AudienceIsServed` | internal/worker/broadcast_handler.go:83-104 | after a complete walk every subscriber of the environment has a notification for the transaction |
| `Broadcasts.BroadcastToAll` | internal/worker/broadcast_handler.go:72-128 | with every page readable it fails exactly when an enqueue does; else exactly the subscribers of the environment, once, in id order, in ceil(n/100) pages, each with a notification, and trigger tasks for exactly the created ones |
| `Digests.StepKeepsInv` | internal/worker/trigger_handler.go:217-249 | every RPUSH, enqueue, LRANGE and DEL keeps one handler in charge and the account of pushes |
| `Digests.OneTaskPerList` | internal/worker/trigger_handler.go:226-249 | one handler is in charge exactly while the list is non-empty |
| `Digests.BatchesConserve` | internal/worker/digest_handler.go:45-49 | outside gaps, batches followed by the list are the push history minus exactly the gap pushes, in order |
| `Digests.NothingLostIffNoGapPush` | internal/worker/digest_handler.go:45-49 | nothing is lost if and only if no push fell between LRANGE and DEL |
| `Digests.PushIsDrained` | internal/worker/digest_handler.go:36-50 | from every reachable state, a push outside a gap is drained with the whole list into one batch that ends with it |
| `Digests.NoIdTwice` | internal/worker/digest_handler.go:45-53 | no id is in two batches, or in a batch and still on the list |
| `Deliveries.NextRetryDelay` | internal/worker/delivery_handler.go:285-295 | a retry is available exactly below the limit, with the next attempt and base*mult^attempt |
| `Deliveries.TotalWait` | internal/worker/tasks.go:19-21 | (mult-1) * total == base * (mult^(n+1) - mult) for the first n retries, for every policy |
| `Deliveries.WorkflowRunMeaning` | internal/worker/delivery_handler.go:91-200 | when a run skips, sends, fails, retries or dead-letters, each exactly, in terms of the step index and the workflow's steps: index 0 to the last are live, all others stale |
| `Deliveries.MessagesMeaning` | internal/worker/delivery_handler.go:623-635 | the messages of a run: one per token of every usable configured push provider, or one to the subscriber's address for the kind the step at the index has, and none where the run stops earlier |
| `Deliveries.PushReachesIff` | internal/worker/delivery_handler.go:413-424 | a push is sent exactly when the reply for some token of some usable configured provider accepts |
| `Deliveries.EnabledIs` | internal/worker/delivery_handler.go:127-133 | a channel is enabled as the subscriber's row for the workflow says, else as its default and the global row say |
| `Deliveries.ErringRunsSendNothing` | internal/worker/delivery_handler.go:85-112 | a failed lookup ends the run with nothing done; no run that errs has sent anything |
| `Deliveries.AddressesAre` | internal/worker/delivery_handler.go:216-241 | each addressable channel's own contact field, and none for any other channel |
| `Deliveries.TransactionalRunMeaning` | internal/worker/delivery_handler.go:331-372 | a template send goes out exactly when the subscriber has an address for the channel and a provider can be built; it writes no status; when it is delivered, retried or run again, each exactly |
| `Deliveries.DeliveryHandler.UpdateChannelStatus` | internal/repository/notification_repo.go:242-255 | of this notification the first row of the channel gets the status, nothing else changes anywhere; a lost write changes nothing |
| `Deliveries.DeliveryHandler.ScheduleRetry` | internal/worker/delivery_handler.go:297-323 | queues exactly the next attempt after its backoff, reporting success even when the enqueue fails |
| `Deliveries.DeliveryHandler.ProcessTransactional` | internal/worker/delivery_handler.go:331-372 | sends, retries or errs as RunTransactional says, and never writes a row |
| `Deliveries.DeliveryHandler.SendToTokens` | internal/worker/delivery_handler.go:413-424 | one message per token in order, whatever the answers; true exactly when some token took it |
| `Deliveries.DeliveryHandler.DeliverPush` | internal/worker/delivery_handler.go:376-456 | messages go to the tokens of every usable configured provider; sent exactly when one was accepted |
| `Deliveries.DeliveryHandler.DeliverInApp` | internal/worker/delivery_handler.go:458-540 | a delivered notification with an in-app row is in the feed, no other notification changes; a stale step index is dead-lettered |
| `Deliveries.DeliveryHandler.DeliverPrimary` | internal/worker/delivery_handler.go:147-200 | one message at most; sent, retried, failed or an error as RunPrimary says |
| `Deliveries.DeliveryHandler.ProcessTask` | internal/worker/delivery_handler.go:70-201 | a run does exactly what RunOf says: its messages, its one status write or retry and nothing else; the limiter counts it only once the lookups hold |
| `Deliveries.AdvanceKeepsTrack` | internal/worker/delivery_handler.go:172-188 | every run of a live chain keeps attempt, messages and waits in step |
| `Deliveries.ChainIsBounded` | internal/worker/delivery_handler.go:172-200 | however often runs fail and repeat: at most retries+1 messages, k-th wait base*mult^k, total in closed form, at most one status |
| `Deliveries.GivesUpAfterLastRetry` | internal/worker/delivery_handler.go:172-188 | a provider that keeps rejecting gets exactly retries+1 messages, then the row is failed |
| `Deliveries.ShippedPolicy` | internal/worker/tasks.go:19-21 | with the shipped constants: 4 messages at most and 42 minutes of waiting |
| `Deliveries.ShippedRejections` | internal/worker/tasks.go:19-21 | with the shipped constants a provider that keeps rejecting gets exactly 4 messages, 2, 8 and 32 minutes apart, and the delivery has failed |
| `Deliveries.EndsUnrecordedIff` | internal/worker/delivery_handler.go:76-200 | a run ends a workflow delivery without a recorded status if and only if a retry was lost, the step index was stale, the status write failed, or a failing lookup or provider used up the queue's re-runs |
| `Deliveries.RecordedOnceIff` | internal/worker/delivery_handler.go:76-200 | over every chain of runs, archived tasks included: an ended delivery has exactly one recorded status if and only if no run met one of these four, and until then nothing is recorded or lost |
| `RateLimits.WindowStart` | internal/worker/delivery_handler.go:116 | the aligned window of an instant contains it |
| `RateLimits.OneWindow` | internal/worker/delivery_handler.go:116 | a window is exactly the instants truncated to its start, and the next starts where it ends |
| `RateLimits.RateLimitStore.IncrementAndCheck` | internal/repository/rate_limit_repo.go:21-53 | counts the call in its slot, creating it with two windows to live; exceeded exactly when the count passes the limit |
| `RateLimits.RateLimitStore.CheckRateLimit` | internal/worker/delivery_handler.go:115-125 | a channel without a limit passes uncounted, another as its counter says |
| `RateLimits.RateLimitStore.Expire` | internal/repository/rate_limit_repo.go:29 | a sweep changes no record and removes none that has not expired |
| `RateLimits.CountersAreAccurate` | internal/repository/rate_limit_repo.go:29-44 | after every run a counter equals the calls of its window; expiry never resets one still in its window |
| `RateLimits.WindowPasses` | internal/repository/rate_limit_repo.go:52 | each aligned window passes exactly min(calls, limit) |
| `RateLimits.AnySpanPassesAtMostTwice` | internal/worker/delivery_handler.go:115-125 | any span of one window's length passes at most twice the limit |
| `RateLimits.TwiceIsReached` | internal/worker/delivery_handler.go:115-125 | that bound is reached for every limit and every window longer than one tick |
| `Channels.ChannelNames` | internal/model/channel_prefs.go:29-35 | the names in table order |
| `Channels.ChannelBSONField` | internal/model/channel_prefs.go:40-47 | the field of a known name, none otherwise |
| `Channels.ChannelByField` | internal/model/channel_prefs.go:53-60 | inverts ChannelBSONField; none exactly for an unknown field |
| `Channels.Get` | internal/model/channel_prefs.go:63-70 | a known channel's flag, and not ok for an unknown name |
| `Channels.ChannelPrefs.Set` | internal/model/channel_prefs.go:73-81 | writes that channel and no other; an unknown name changes nothing |
| `Channels.And` | internal/model/channel_prefs.go:86-92 | the channel-wise conjunction |
| `Channels.AllChannelsEnabled` | internal/model/channel_prefs.go:95-101 | all on, and the identity of the conjunction |
| `Channels.CanonicalTable` | internal/model/channel_prefs.go:14-26 | the shipped table has distinct names and distinct fields |
| `Channels.StagesPartition` | internal/repository/preference_repo.go:67-86 | every channel path is in exactly one of the two stages |
| `Channels.StagedAt` | internal/repository/preference_repo.go:67-80 | a named channel is staged under its override, another under its seed |
| `Channels.BuildStages` | internal/repository/preference_repo.go:67-80 | the loop builds exactly the two stages |
| `Channels.ChangeDecodes` | internal/repository/preference_repo.go:83-86 | an applied change overrides the named channels and no other; an inserted one is the seed overridden |
| `PreferenceRace.OneRetrySuffices` | internal/repository/preference_repo.go:44-56 | in every interleaving no call fails, a row exists once one committed, and it is the replay of the commits |
| `PreferenceRace.LastOverrideWins` | internal/repository/preference_repo.go:75-78 | a channel ends as the last committed override naming it |
| `PreferenceRace.SeedOtherwise` | internal/repository/preference_repo.go:79-80 | an unnamed channel keeps the inserting call's seed |
| `PreferenceRace.NoLostUpdate` | internal/repository/preference_repo.go:24-56 | over every interleaving each channel of the stored row reads as the last override naming it, else the seed |
| `PreferenceRace.NoCommitFails` | internal/repository/preference_repo.go:44-56 | in no reachable state is a commit at a branch that fails: a row that was found is there, and a retry finds the row |
| `PreferenceRace.NewCallCommits` | internal/repository/preference_repo.go:44-56 | whatever else is in progress, a new call left alone commits its change exactly once |
| `PreferenceRace.CallCommits` | internal/repository/preference_repo.go:44-56 | left alone, a call commits within two attempts |
| `Preferences.ResolveChannelPrefs` | internal/engine/preference_resolver.go:22-30 | without a workflow row nothing is enabled beyond the defaults |
| `Preferences.IsChannelEnabled` | internal/engine/preference_resolver.go:35-38 | an unknown channel is never enabled |
| `Preferences.LoadStored` | internal/handler/preference_handler.go:52-68 | splits the stored rows into the global one and exactly one per workflow |
| `Preferences.FindForWorkflow` | internal/repository/preference_repo.go:110-137 | finds exactly the two rows that govern a workflow |
| `Preferences.ChannelOverrides` | internal/handler/preference_handler.go:267-282 | a payload is refused exactly for its fault, and otherwise the overrides are exactly what it says |
| `Preferences.FaultExact` | internal/handler/preference_handler.go:267-282 | a payload is at fault exactly when some field is no channel's or no channel is turned on or off |
| `Preferences.OverridesSay` | internal/handler/preference_handler.go:267-282 | channel by channel, overriding or masking with what a payload names does what the payload says |
| `Preferences.EffectiveExact` | internal/engine/preference_resolver.go:19-38 | a channel is governed by the flag in the workflow row, absent meaning off; without a row by the default, unless the global row lacks the flag |
| `Preferences.EnabledExact` | internal/engine/preference_resolver.go:35-38 | a delivery is let through exactly when its channel's governing flag is on |
| `Preferences.OverriddenMask` | internal/handler/preference_handler.go:146-147 | overriding a mask changes only the named channels of the masked defaults |
| `Preferences.PreferenceStore.UpdateChannels` | internal/repository/preference_repo.go:44-104 | overrides the named channels of the stored row, or of the seed for a new one, and touches no other row |
| `Preferences.PreferenceStore.UpdateWorkflow` | internal/handler/preference_handler.go:156-217 | succeeds exactly when the payload has no fault and the workflow exists and is active, and names the error otherwise; the workflow's effective channels become the old effective ones overridden; no other workflow changes; the response is the effective state |
| `Preferences.PreferenceStore.UpdateGlobal` | internal/handler/preference_handler.go:116-151 | succeeds exactly when the payload has no fault; workflows with a row keep their channels; for the others a named channel becomes default and override, the rest stay |
| `Preferences.PreferenceStore.GetAll` | internal/handler/preference_handler.go:79-112 | one global row, then per workflow exactly the channels that govern its delivery |
| `Preferences.PreferenceStore.DeliveryAllows` | internal/worker/delivery_handler.go:127-133 | a delivery passes exactly when the effective channels allow it |
| `Preferences.PreferenceStore.ShownIsUsed` | internal/engine/preference_resolver.go:19-38 | what the settings show for a channel is what delivery decides |
| `Backfill.CountsMissing` | internal/repository/preference_repo.go:182-189 | the count is the number of global rows without the path |
| `Backfill.Collection.UpdateMissing` | internal/repository/preference_repo.go:182-185 | fills one path in every global row lacking it and counts those rows |
| `Backfill.Collection.BackfillGlobalChannels` | internal/repository/preference_repo.go:177-192 | afterwards every global row has every channel before the first failing one, all of them without a failure, stored flags and workflow rows kept; it reports exactly how many of these were missing, also when it returns early |
| `Backfill.BackfilledMask` | internal/repository/preference_repo.go:169-176 | a backfilled mask allows every channel not explicitly turned off |
| `Dotted.SplitJoin` | internal/engine/workflow_engine.go:89-90 | splitting a joined path of dot-free keys gives the keys |
| `Dotted.JoinSplit` | internal/engine/workflow_engine.go:89-90 | joining a split path gives the path |
| `Dotted.ConflictIsPrefix` | internal/repository/subscriber_repo.go:25-27 | two joined paths conflict exactly when one key list is a prefix of the other |
| `Documents.ApplyByField` | internal/repository/subscriber_repo.go:116-140 | updates below different fields do not interact, in any order |
| `Documents.UpdatesMerge` | internal/repository/subscriber_repo.go:48-56 | a document's updates, in any order, succeed exactly when it fits the stored one, and then give the deep merge |
| `Documents.SuppliesPaths` | internal/repository/subscriber_repo.go:108-111 | a document supplies something exactly when it has a path |
| `SubscriberUpdates.Stages.Record` | internal/repository/subscriber_repo.go:133-138 | records one more write at a new path and keeps the rest |
| `SubscriberUpdates.FlattenChannels` | internal/repository/subscriber_repo.go:116-127 | in whatever order the keys come, stages exactly the document's values under their dotted paths |
| `SubscriberUpdates.FlattenChannelValue` | internal/repository/subscriber_repo.go:129-140 | a subdocument is walked, a non-empty array merged, an empty one dropped, a scalar set |
| `SubscriberUpdates.HasChannelPath` | internal/repository/subscriber_repo.go:142-149 | true exactly when some staged path lies below channels |
| `SubscriberUpdates.DropManaged` | internal/repository/subscriber_repo.go:80-87 | drops exactly the fields an upsert must not overwrite |
| `SubscriberUpdates.BuildSubscriberUpdate` | internal/repository/subscriber_repo.go:70-106 | the stages hold exactly what the caller supplied, free-form data with any keys included, and the seeds a new row needs besides |
| `SubscriberUpdates.StagesHold` | internal/repository/subscriber_repo.go:79-91 | $set has every supplied field but the managed ones under its name, and every scalar of the channels under its dotted path; $addToSet every non-empty array of the channels under its own |
| `SubscriberUpdates.StagesHoldNoMore` | internal/repository/subscriber_repo.go:79-91 | and neither stage has anything else |
| `SubscriberUpdates.SeedsAre` | internal/repository/subscriber_repo.go:89-104 | a new row is created now, offline, with the default locale unless one is supplied and empty channels unless some are |
| `SubscriberUpdates.PathsPrefixFree` | internal/repository/subscriber_repo.go:116-140 | no supplied value's path is a prefix of another's |
| `SubscriberUpdates.UpsertHasNoConflict` | internal/repository/subscriber_repo.go:25-32 | no path of any stage equals or is a dotted prefix of another, within a stage or across |
| `SubscriberUpdates.ChannelPathStaged` | internal/repository/subscriber_repo.go:99-104 | a channels path was produced exactly when the channels supply something |
| `SubscriberUpdates.LocaleStaged` | internal/repository/subscriber_repo.go:85-98 | a locale is written exactly when one was supplied |
| `SubscriberHistory.UpsertMeaning` | internal/repository/subscriber_repo.go:42-69 | the compiled upsert, applied in any order, overwrites what was supplied, merges channels, leaves the rest and seeds new rows |
| `SubscriberHistory.TypedFits` | internal/repository/subscriber_repo.go:108-115 | channels of the model's shape always fit stored ones, and merging keeps the shape |
| `SubscriberHistory.UnionExact` | internal/repository/subscriber_repo.go:57-58 | merging token lists keeps every token and adds no duplicate |
| `SubscriberHistory.WithoutExact` | internal/repository/subscriber_repo.go:194-201 | removing tokens removes exactly those |
| `SubscriberHistory.StoredIsGood` | internal/repository/subscriber_repo.go:151-170 | a row exists exactly after an upsert, and keeps its shape |
| `SubscriberHistory.EventEffects` | internal/repository/subscriber_repo.go:202-223 | a token removal takes the named tokens out of their own lists, a presence write sets presence and the time of going online; both renew updatedAt and touch nothing else |
| `SubscriberHistory.CreatedAtFirstUpsert` | internal/repository/subscriber_repo.go:67-69 | createdAt is the time of the first upsert |
| `SubscriberHistory.OnlineIsLastPresence` | internal/repository/subscriber_repo.go:316-324 | isOnline is the last presence write |
| `SubscriberHistory.OfflineByDefault` | internal/repository/subscriber_repo.go:92 | without a presence write a row is offline |
| `SubscriberHistory.LocaleIsLastSupplied` | internal/repository/subscriber_repo.go:85-87 | locale is the last one supplied |
| `SubscriberHistory.LocaleByDefault` | internal/repository/subscriber_repo.go:96-98 | without one it is the default |
| `SubscriberHistory.TokensAreHeld` | internal/repository/subscriber_repo.go:194-223 | each token list is duplicate-free and holds exactly the tokens added and not removed since |
| `Feeds.InFeed` | internal/repository/notification_repo.go:60-97 | a notification is in the feed of exactly its own subscriber and environment, once an in-app row is sent or delivered, as far as read, seen and archived let it through |
| `Feeds.BadgeMatchesFeed` | internal/repository/notification_repo.go:209-221 | the unseen count is the total of the feed filtered to unseen |
| `Feeds.SeenAndUnseenMakeFeed` | internal/repository/notification_repo.go:82-101 | seen and unseen totals add up to the feed's |
| `Feeds.NotificationStore.MarkSeen` | internal/repository/notification_repo.go:146-159 | finds exactly the subscriber's own notification; it is then seen and otherwise as it was, and nothing else changes |
| `Feeds.NotificationStore.MarkRead` | internal/repository/notification_repo.go:161-174 | finds exactly the subscriber's own notification; it is then read and seen, and nothing else changes |
| `Feeds.NotificationStore.MarkArchived` | internal/repository/notification_repo.go:176-189 | the owned notification leaves the feed and the badge, stays in the feed with archived ones, and nothing else changes; reports none otherwise |
| `Feeds.NotificationStore.BulkMark` | internal/repository/notification_repo.go:191-207 | each listed notification of the subscriber is seen, and read for a bulk read, nothing else changes; the badge falls by exactly the number of distinct listed ones on it |
| `Feeds.NotificationStore.UpdateChannelStatus` | internal/repository/notification_repo.go:242-255 | touches no mark and no other notification; only an in-app write can change a feed, and only by this notification |
| `Feeds.BulkMarkCounts` | internal/repository/notification_repo.go:191-221 | the same account for both bulk marks, whatever the list repeats or does not own |
| `Feeds.MarksMoveFeeds` | internal/repository/notification_repo.go:191-207 | a bulk read moves exactly the listed ones from the unread to the read part of the feed; a bulk seen leaves both alone; either takes them out of the unseen part |
| `Feeds.MarksLeaveOthers` | internal/repository/notification_repo.go:191-207 | neither changes any feed of another subscriber or environment |
| `Feeds.NewIsHidden` | internal/repository/notification_repo.go:21-31 | a new notification is unseen, unread and on nobody's badge |
| `Feeds.SentJoinsBadge` | internal/repository/notification_repo.go:209-221 | once its in-app row is sent it is on its subscriber's badge and in the unread feed |
| `Feeds.DeliveredIsShown` | internal/repository/notification_repo.go:209-221 | after any history, a notification created with an in-app step and then sent in-app is on its subscriber's badge and in the unread feed |
| `Feeds.BadgeChanges` | internal/repository/notification_repo.go:73-80 | only an in-app status write adds to a badge, only its owner, expiry or a status write takes from it |
| `Feeds.PendingIsNotDelivered` | internal/repository/notification_repo.go:60-72 | a new notification is in no feed |
| `Feeds.ReadIsSeen` | internal/repository/notification_repo.go:161-207 | in every reachable store a read notification is seen |
| `Feeds.MarksLast` | internal/repository/notification_repo.go:146-207 | seen, read and archived are never undone |
| `Feeds.BadgeIsBounded` | internal/repository/notification_repo.go:209-255 | between two moments a badge grows by at most the in-app status writes in between |
| `Telegram.DecodeEncode` | internal/provider/telegram.go:147 | UTF-16 decoding undoes encoding: no character is split |
| `Telegram.EncodeDecode` | internal/provider/telegram.go:147 | decoding succeeds on nothing but encodings, and gives the text that was encoded |
| `Telegram.EncodedAs` | internal/provider/telegram.go:147 | a character is one unit, or past 0xFFFF a high and a low surrogate that share its bits |
| `Telegram.UnitsIsEncodedLength` | internal/provider/telegram.go:147-154 | the per-character costs add up to the encoded length |
| `Telegram.TruncateTelegramText` | internal/provider/telegram.go:146-163 | identity within the limit, else the longest whole-character prefix that leaves room, and an ellipsis |
| `Telegram.TruncationFills` | internal/provider/telegram.go:150-162 | a text of at most 4096 units is kept, a longer one becomes one of 4095 or 4096, and a truncation is its own truncation |
| `Telegram.TruncationIsUnique` | internal/provider/telegram.go:146-163 | the truncation is unique, hence idempotent |
| `Telegram.TruncationEncodes` | internal/provider/telegram.go:144-162 | encoded, a cut text is a prefix of the original encoding and an ellipsis, and decodes to itself |
| `Engine.LookupNested` | internal/engine/workflow_engine.go:89-103 | looking up the keys a value was nested under finds it |
| `Engine.LookupConcat` | internal/engine/workflow_engine.go:89-103 | a lookup can be split anywhere |
| `Engine.LookupReaches` | internal/engine/workflow_engine.go:89-103 | a lookup finds what a reader of the document would, exactly along plain objects, and nil past any object of a driver's type |
| `Engine.ResolveMapField` | internal/engine/workflow_engine.go:89-103 | the loop is the recursive lookup of the split path, nil from the first missing key or non-map |
| `Engine.ResolveSubscriberField` | internal/engine/workflow_engine.go:71-87 | a dotted path below data is the lookup of its keys in the subscriber's data, and data alone all of it |
| `Engine.ResolveField` | internal/engine/workflow_engine.go:54-69 | a dotted payload or subscriber.data path is the lookup of its keys; a field without a dot is nil |
| `Engine.DottedFieldIsLookup` | internal/engine/workflow_engine.go:54-103 | for every list of dot-free keys, the dotted payload or subscriber.data field is the lookup of the keys, which stops at anything but a plain map |
| `Engine.FieldsAtRunTime` | internal/engine/workflow_engine.go:54-103 | in a running handler a dotted payload field is the nested value at any depth, and subscriber.data only one key deep: below that it is nil |
| `Engine.StepFieldIsNotice` | internal/engine/workflow_engine.go:105-122 | a step's seen and read are the notification's, nil before there is one |
| `Engine.Contains` | internal/engine/workflow_engine.go:130-131 | true exactly for a substring |
| `Engine.CompareValues` | internal/engine/workflow_engine.go:124-164 | every operator, with the list loops of in and nin over plain lists only, holds exactly as specified; an unknown one never does |
| `Engine.StoredListsNeverMatch` | internal/engine/workflow_engine.go:132-149 | for a list as the database driver decodes it, in never holds and nin always does |
| `Engine.NumbersCompare` | internal/engine/workflow_engine.go:150-191 | between finite numbers, given as such or as text, gt, gte, lt, lte, eq and ne are the comparisons of real numbers |
| `Engine.InfinitiesCompare` | internal/engine/workflow_engine.go:150-191 | the infinities lie beyond every finite number and equal themselves; of NaN only ne holds |
| `Engine.OthersCompare` | internal/engine/workflow_engine.go:172-193 | what is no number is in no order; truth values equal the same truth value, nil nil, and other values what prints the same |
| `Engine.SearchesCompare` | internal/engine/workflow_engine.go:130-149 | contains is a stretch of the printed text; in is a plain list with an item that prints the same; no unknown operator holds |
| `Engine.OperatorsFit` | internal/engine/workflow_engine.go:124-193 | eq is symmetric, and reflexive exactly for what does not scan as NaN; ne and nin are negations, gt/gte mirror lt/lte, and numbers other than NaN are trichotomous |
| `Engine.EvaluateCondition` | internal/engine/workflow_engine.go:49-52 | a condition is met exactly when its field's value compares |
| `Engine.ClearedLocaleIsSeen` | internal/handler/subscriber_handler.go:198-199 | a cleared locale meets a condition on the empty locale, and is one a running handler can see |
| `Engine.RunsIffAllHold` | internal/engine/workflow_engine.go:17-52 | a step runs exactly when it is enabled and what each condition refers to compares as it asks |
| `Engine.ThresholdStep` | internal/engine/workflow_engine.go:49-152 | a step that asks for a payload number above a bound runs exactly when it is above |
| `Engine.SubscriberFields` | internal/engine/workflow_engine.go:54-87 | a subscriber's own fields by name, whatever follows behind a dot; any other name is nil |
| `Engine.EvaluateWorkflow` | internal/engine/workflow_engine.go:17-47 | one entry per step, in order, skipped exactly when disabled or some condition fails |
| `Engine.ConditionOnPayload` | internal/engine/workflow_engine.go:49-69 | a condition on a dotted payload field tests the nested value |
| `Hubs.Hub.Append` | internal/ws/hub.go:28 | the slice with one more client, in place or in a larger array |
| `Hubs.Hub.Remove` | internal/ws/hub.go:38 | the in-place shift removes one position and keeps the order |
| `Hubs.Hub.RemoveFirst` | internal/ws/hub.go:35-41 | removes exactly the first occurrence of a client |
| `Hubs.Hub.Register` | internal/ws/hub.go:25-30 | the room gains the client at the end, other rooms are unchanged |
| `Hubs.Hub.Unregister` | internal/ws/hub.go:32-45 | the room loses the first occurrence, other rooms are unchanged, an empty room is unlisted |
| `Hubs.Hub.Offer` | internal/ws/hub.go:50-56 | every occurrence takes the message if there is space |
| `Hubs.Hub.Send` | internal/ws/hub.go:47-57 | each registration in the room gets the message at most once, no buffer passes its bound, no other client changes |
| `Hubs.OfferedExact` | internal/ws/hub.go:51-55 | a client registered n times gets exactly min(n, free space) copies after what it had |
| `Hubs.Hub.Replay` | internal/ws/hub.go:25-45 | after any history every room is what its own operations make of it, and only non-empty rooms are listed |
| `Hubs.ListedAsRegistered` | internal/ws/hub.go:25-45 | a client is listed once per registration not taken back, whatever other clients and rooms do |
| `Hubs.OrderIsKept` | internal/ws/hub.go:36-41 | a room's list is its registrations with some left out, never reordered |
| `Hubs.WithoutFirst` | internal/ws/hub.go:36-41 | removing the first occurrence cuts the list exactly there |

## Left out

- MongoDB, Redis and asynq internals: a call is one atomic operation with its documented effect, or a failure; only the preference upsert is split into probe and commit.
- Providers, HTTP routing, authentication, subscriber tokens, credential encryption and address checks: foreign calls, not part of this model.
- Template rendering and locale fallback: library behaviour; the fallback of last resort depends on map order.
- Workflow edits while tasks are queued: the machine's definitions are fixed; the handlers' methods and the delivery model do take the workflow found at run time, including stale step indices.
- Worker crashes between a side effect and the handler's return: a handler that failed is re-run only where the code returns an error.
- The trigger handler takes its entries one after another; in the machine their step loops may interleave, which allows more runs than the code has.
- Expiry of a digest list before its task fires, and lost DEL calls in the single-list machine: `Digests` assumes neither; `Dispatch` allows both.
- Delay and digest durations (`ParseDuration`): when a task fires is a choice of the run.
- 64-bit overflow of durations and counters: numbers are unbounded; the shipped backoff stays far below the limit.
- Rate-limit windows of zero or negative length, which the configuration format does not exclude: windows are positive.
- A failing rate-limit store lets a delivery pass without counting it: `Deliveries.DeliveryHandler.ProcessTask` models this, the `RateLimits` theorems are about calls that were counted.
- A preference lookup that fails at delivery reads as "no row": `Deliveries` models this, while `Preferences.PreferenceStore.ShownIsUsed` compares the settings page with a delivery whose lookups succeed.
- The order in which a feed page lists notifications that were created at the same instant, and paging itself: only the totals are modelled.
- Subscriber lookups before the preference endpoints, and the identifier-or-hex lookup of a workflow: they decide only between an error and the modelled part.
- The subscriber update endpoint, which sets each field it is given verbatim and so may clear the locale (`internal/handler/subscriber_handler.go:198-199`): it is not among the events of `SubscriberHistory`; conditions do allow for an empty locale (`Engine.ClearedLocaleIsSeen`).
- The subscriber model's fields other than the ones an upsert treats specially: they are arbitrary marshaled fields.
- The text formatting (`fmt` "%v") and number scanning of condition values, and floating-point rounding: parameters of `Engine`.
- Invalid UTF-8 in a Telegram text: texts are sequences of characters.
- The reason strings of skipped steps and the activity log.
- Integration management, including the several-primaries case, announcements, the SDK, WebSocket pumps and presence timers.
