# HealthPage backend: a verified model

HealthPage is a status-page service. Its backend keeps incidents and maintenances, derives from them what
every component of a page shows, integrates the recorded statuses into uptime figures, notifies
subscribers through a message broker, bills accounts, turns monitoring alerts into incidents, imports
pages from another service, and publishes trees, feeds and signed links.

This project models that logic in Dafny 4.11 and proves what it keeps. `dafny verify dfyconfig.toml`
checks all of it.

Code that changes rows or fields is modelled by classes and methods whose postconditions equate the new
state with a function of the old one; about those functions the lemmas prove invariants over whole runs,
independent specifications and round trips. One store method is one atomic step over in-memory tables.

## How the parts hang together

- **Status, history, uptime.** `Statuses`, `Lifecycle` and `Derivation` are the domain rules. `StatusTables`
  says what each transaction does to the tables, `StatusStore` carries the transactions out statement by
  statement, and `StatusRuns` proves the invariant of all runs: the incrementally maintained status is the
  derivation from scratch, and every history is a gap-free timeline whose last period is open and carries
  the status. A component that an operator (or its creation) has set to something else, and that no
  incident or maintenance has touched since, is marked in the proof-only field `manual`. The timeline is
  what makes the day-by-day arithmetic of `Uptime` sound: `UptimeProofs` shows that a report counts
  instants, and `ReachableUptime` joins both ends. `StatusHistories` shows that the histories need no check
  of the pages, and that incidents are open for deduplication exactly while they impose something;
  `StatusPages` says what happens to the statuses without the callers' check that components belong to the
  page. `StatusWrites` says field by field what each transaction writes and when it is accepted, and
  `StatusRecords` what no run changes. `UptimeMeaning` says what the percentages are shares of.
- **Notifications.** `Topology` holds the queue declarations and topic matching, `Delivery` the fan-out and
  the worker as a state machine with failing calls, `DeliveryOutcomes` how each delivery ends and what a
  dispatch sends to whom, `DeliveryKept` delivery at least once whatever fails,
  `DeliveryRuns` conservation, and `DeliveryRetries` the bounded retry of a sender that always fails.
  `DeliveryInterleaving` is the same worker call by call, with any number of workers at once, and
  `DeliverySent` says when a sent row stays sent there.
- **Billing.** `Ledger` threads repository calls that may fail and `Billing` is the service. `BillingRuns`
  shows that paid periods are backed by payments, `BillingGrants` that premium and period ends have such a
  cause, `BillingLifecycle` that status, dunning counter and failed charges of a subscription fit together
  whichever calls fail, `BillingDunning` that so do the two plans in runs of completed steps and that sweeps
  drain what is due, `BillingSwept` which subscriptions the sweep sees, `BillingFailures` how dunning ends,
  `BillingLosses` which failing call loses a paid period or a failed charge, and `BillingPlans` which one
  parts the two plans. `BillingTerms` follows what is bought from the checkout to the paid period and its
  renewals, and `BillingCancel` a cancelled subscription to its end.
- **Alerts.** `Alerts` runs on the same store as incidents; `AlertEffects` says what an alert does to the
  components, and that edits between alerts do not matter to the open keys.
- **Import.** `ServiceClosure` fetches the service graph, `ServiceAnswers` treats servers that answer with
  another id and `ServiceLoops` says when the fetching ends; `ImportStore` and `Importer` are the two-pass
  import, and `ImportedContent` says what it writes of what was delivered.
- **Trees, feeds, tokens.** `SiblingOrder`, `ComponentForest` and `ComponentTree`; `ICalText`, `ICal` and
  `ICalEvents`; `DottedText`, `Decimal`, `Uuids`, `Base64Url` and `Tokens`.

## Findings

Inputs on which the code does less than one may expect. Each condition named here is proved in both directions.

- A checkout on a subscription that is premium already makes it pending, which the due sweep never selects.
  `CheckoutKeepsSweptIff`: starting from free is the exact condition. `StuckIsNeverDue`: it stays so until a
  payment succeeds.
- A repository failure between marking a payment and granting its period loses the period for good.
  `StepLosesIff`: for a webhook the third or fourth call (the repeated webhook is ignored), for a renewal the
  third (the subscription stays due and is charged again), in a sweep the third of any of its renewals.
  `LostActivationStaysLost`: no later step repairs it.
- A webhook whose lookup of the payment fails is answered like success, so it need not come again.
  `SuccessActivates`: such a first success is granted if and only if five calls succeed, and it is answered
  without an error also if the first one fails, with nothing recorded.
- A failing charge is not counted when the call that marks its payment failed or the one that updates the
  subscription fails too. `StepCountsIff`: these two calls are the exact ones, alone and within a sweep; the
  subscription is then as due as before, so the next sweep charges it again with no retry interval between.
- A failure between writing the subscription and writing the account leaves their plans apart.
  `StepPartsIff`: the fifth call of a webhook for an account that is not premium, the second of a downgrade,
  the fourth of the last failing renewal.
- Two workers on one message can turn a sent row into a failed one, after which a further copy is sent again:
  `SentCanBeOverwritten` reaches such a state. `SentStaysSentIff`: a sent row stays sent in all further runs
  exactly if no worker on it is about to send or to give up, and the attempts still to be counted stay
  within the schedule. Handled one message at a time this always holds: `SentIsNeverSentAgain`.
- Changing a component's status by hand to the status it has already opens a second period with the same
  status. `ManualChangeKeepsDistinctIff`: the status differs, or the history is empty.
- The store does not check that components belong to the page of an incident or maintenance; its callers do.
  `IncidentOpAgreesIff` and `MaintenanceOpAgreesIff`: without the check statuses keep agreeing exactly if the
  written page imposes on every named component of another page what its own page derives.
- A server that answers a request with another id can keep the fetch loop going for ever:
  `WrongAnswersLoop`. `FetchesExactlyIff`: with all reachable services answered, the loop ends with exactly
  these if and only if every such answer carries the id asked for. `FetchEndsIff`: it ends at all if and
  only if it never comes to a trap, a set of unseen ids, one of them queued, each with a child in the set,
  whose members no answer to be met carries.
- `EffectiveStatus` of a leaf whose status is outside the five values is that status and not the worst of its
  subtree. `EffectiveIsWorstOfSubtree`: the status is valid, or the node has children.
- `round2` moves a negative value below -0.005 by more than 0.005 unless it lands on a half:
  `RoundingErrorIff`. Percentages are never negative.
- `time.Unix` wraps for times beyond 2^63 - 1 - 62135596800, so such tokens read as expired: `TimeIsExactIff`.

## Model

| member | source | states |
|---|---|---|
| `Statuses.WorstStatus` | backend/internal/domain/status.go:63-72 | the running maximum is the worst status of the set, read off the display ladder; unknown statuses never win |
| `Statuses.WorstIn` | backend/internal/domain/status.go:34-72 | the worst status bounds all others by display severity and is one of them, or operational |
| `Statuses.WorstInIsUnique` | backend/internal/domain/status.go:63-72 | those properties leave no other answer |
| `Statuses.LadderOfDisplay` | backend/internal/domain/status.go:34-60 | unknown, operational, degraded, maintenance, partial outage, major outage, in this order |
| `Statuses.WorstInUnion` | backend/internal/domain/status.go:61-72 | aggregating in two stages is aggregating once |
| `Lifecycle.Incident.ApplyStatusChange` | backend/internal/domain/incident.go:180-194 | a valid change sets status and ResolvedAt, an invalid one changes nothing and is reported |
| `Lifecycle.Incident.SetPostmortem` | backend/internal/domain/incident.go:201-212 | a postmortem is accepted on resolved incidents only; the empty text removes it |
| `Lifecycle.RefusedChangesAreInvisible` | backend/internal/domain/incident.go:180-184 | a sequence of changes acts like its accepted ones alone |
| `Lifecycle.ResolvedAtIsStartOfTrailingRun` | backend/internal/domain/incident.go:173-194 | after any accepted changes ResolvedAt is the time of the first change of the trailing resolved run, or unset |
| `Lifecycle.ResolvedAtAfterAnyChanges` | backend/internal/domain/incident.go:173-194 | the same for any requested changes, of which the invalid ones are refused |
| `Lifecycle.IncidentStaysConsistent` | backend/internal/domain/incident.go:173-194 | ResolvedAt is set exactly while the status is resolved |
| `Lifecycle.Maintenance.ApplyStatusChange` | backend/internal/domain/maintenance.go:119-141 | the new status and both timestamps, and the refusal of unknown statuses |
| `Lifecycle.StartedAtIsFirstSinceScheduled` | backend/internal/domain/maintenance.go:110-141 | StartedAt is the first in_progress since the last scheduled |
| `Lifecycle.CompletedAtIsStartOfTrailingRun` | backend/internal/domain/maintenance.go:110-141 | CompletedAt is the first change of the trailing completed run |
| `Lifecycle.RefusedMaintenanceChangesAreInvisible` | backend/internal/domain/maintenance.go:119-123 | refused changes leave no trace in any sequence |
| `Derivation.DerivedComponentStatus` | backend/internal/domain/derive.go:19-57 | the two loops collect what active incidents and running maintenances impose; the answer is the worst of it, and `driven` says whether anything is imposed |
| `StatusStore.MergedImposesTheSame` | backend/internal/store/incidents.go:415-441 | one merged incident and one merged maintenance impose on a component exactly what all rows of the page impose |
| `StatusStore.Store.CloseOpenStatusPeriod` | backend/internal/store/db/component_status_history.sql.go:15-23 | every open period of the component, and nothing else, is closed now |
| `StatusStore.Store.ChangeComponentStatusTx` | backend/internal/store/components.go:166-185 | close, set and open happen at one instant |
| `StatusStore.Store.ListActiveIncidentComponentStatuses` | backend/internal/store/incidents.go:415-425 | exactly the affected rows of the page's active incidents |
| `StatusStore.Store.ListActiveMaintenanceComponentIDs` | backend/internal/store/incidents.go:426-436 | exactly the components of the page's running maintenances |
| `StatusStore.Store.RecomputeComponentStatusesTx` | backend/internal/store/incidents.go:407-461 | the listed live components follow the derivation again, whatever their order and repetitions; others are untouched |
| `StatusStore.Store.CreateComponent` | backend/internal/store/components.go:69-89 | the new row, with the empty status read as operational; a refusal changes nothing |
| `StatusStore.Store.SoftDeleteComponent` | backend/internal/store/components.go:134-139 | only the deletion mark changes |
| `StatusStore.Store.ChangeComponentStatus` | backend/internal/store/components.go:143-161 | the operator's status is set with a history entry; a missing component or invalid status changes nothing |
| `StatusStore.Store.CreateIncident` | backend/internal/store/incidents.go:20-77 | the incident and its components are stored and their statuses recomputed, or everything is rolled back |
| `StatusStore.Store.UpdateIncident` | backend/internal/store/incidents.go:246-303 | old and new components are recomputed; a failing statement changes nothing |
| `StatusStore.Store.AddIncidentUpdate` | backend/internal/store/incidents.go:308-369 | the status change is applied to the incident and its components recomputed |
| `StatusStore.Store.SoftDeleteIncident` | backend/internal/store/incidents.go:373-400 | the incident stops imposing and its components are recomputed |
| `StatusStore.Store.CreateMaintenance` | backend/internal/store/maintenances.go:17-58 | the maintenance is stored and its components recomputed, or nothing changes |
| `StatusStore.Store.UpdateMaintenance` | backend/internal/store/maintenances.go:153-212 | old and new components are recomputed; a failing statement changes nothing |
| `StatusStore.Store.SoftDeleteMaintenance` | backend/internal/store/maintenances.go:252-279 | the maintenance stops imposing and its components are recomputed |
| `StatusStore.Store.StatusHistorySince` | backend/internal/store/db/component_status_history.sql.go:60-100 | the periods that are open or ended at or after the given time, in order |
| `StatusWrites.SinceSplit` | backend/internal/store/db/component_status_history.sql.go:60-100 | the listing goes through the periods one by one and takes those that are open or ended then or later |
| `StatusWrites.ImposedIff` | backend/internal/domain/derive.go:8-57 | a status is imposed exactly by an incident of the page that is neither deleted nor resolved and reports it, or, under maintenance, by a maintenance in progress |
| `StatusWrites.IncidentCreated` | backend/internal/store/incidents.go:20-77 | accepted exactly if the id is new, the enum and component constraints hold and no other incident is open for the key; the row has the given fields, every named component follows the rows, with source and history, and nothing else changes |
| `StatusWrites.IncidentUpdated` | backend/internal/store/incidents.go:246-303 | the exact condition of acceptance; the row gets the life, and the components exactly if they are replaced; page, key and all other rows stay, old and new components follow the rows |
| `StatusWrites.UpdateAdded` | backend/internal/store/incidents.go:308-369 | the exact condition; status and resolution time of the row, the first time kept, all else as before |
| `StatusWrites.IncidentDeleted` | backend/internal/store/incidents.go:373-400 | the row gets its deletion time, all else stays, its components follow the rest |
| `StatusWrites.MaintenanceCreated` | backend/internal/store/maintenances.go:17-58 | the same for a new maintenance |
| `StatusWrites.MaintenanceUpdated` | backend/internal/store/maintenances.go:153-212 | the exact condition; the row gets the life with its timestamps, and the components exactly if they are replaced |
| `StatusWrites.MaintenanceDeleted` | backend/internal/store/maintenances.go:252-279 | the row gets its deletion time, all else stays |
| `StatusWrites.ComponentWritten` | backend/internal/store/components.go:69-161 | page, creation time, status and history of a created, deleted or changed component, and that no other is touched |
| `StatusRecords.RunKeepsIdentities` | backend/internal/store/incidents.go:246-461 | no run moves a row to another page or key, dates a component anew, changes a deleted incident or maintenance, or revives anything |
| `StatusRecords.ComponentsAreOnRecord` | backend/internal/store/components.go:69-139 | in every run a component has the page and time of the operation that created it, and is deleted if and only if a later one deletes it |
| `StatusRecords.RunStartsAfterCreation` | backend/internal/store/components.go:163-185 | in every run no period begins before its component was created |
| `StatusTables.RecomputeInBatches` | backend/internal/store/incidents.go:436-461 | recomputing one batch after another is recomputing their union once |
| `StatusRuns.RecomputeRestoresAgreement` | backend/internal/store/incidents.go:402-461 | after rows changed that matter to the listed components only, recomputing these restores agreement everywhere |
| `StatusRuns.ApplyKeepsInv` | backend/internal/store/incidents.go:246-461 | every transaction on components of its own page, refused ones included, keeps references, agreement, timelines and open-incident uniqueness |
| `StatusRuns.RunKeepsInv` | backend/internal/store/components.go:163-185 | every such run keeps them; with callers that check for a real change, neighbouring periods differ |
| `StatusHistories.ApplyKeepsHistories` | backend/internal/store/components.go:163-185 | every transaction, pages checked or not, keeps the timelines and at most one open incident per page and key |
| `StatusHistories.RunKeepsHistories` | backend/internal/store/incidents.go:20-461 | so does every run |
| `StatusHistories.RunKeepsLives` | backend/internal/domain/incident.go:173-194 | runs whose callers change lives by ApplyStatusChange keep every stored incident with ResolvedAt set exactly while resolved |
| `StatusHistories.OpenIsActive` | backend/internal/store/incidents.go:79-90 | in such runs an incident is open for its page and key exactly while it is active |
| `StatusRuns.StoredStatusIsDerivedFromScratch` | backend/internal/domain/derive.go:8-57 | in every reachable state the stored status of a live, not overridden component is the derivation over complete listings of its page |
| `StatusRuns.SwitchKeepsTimeline` | backend/internal/store/components.go:166-185 | closing and opening keeps the timeline, and neighbours stay distinct exactly if the status changes or the history was empty |
| `StatusRuns.ManualChangeKeepsDistinctIff` | backend/internal/store/components.go:143-161 | a manual change keeps neighbours distinct exactly if the history is empty or the status differs |
| `StatusRuns.ForeignPageBreaksAgreement` | backend/internal/store/incidents.go:20-77 | a state and an incident without the page check that breaks the agreement of another page |
| `StatusPages.RecomputeAgreesIff` | backend/internal/store/incidents.go:402-461 | after rows changed that matter to the listed components only, recomputing restores agreement if and only if the page imposes on each what its own page derives |
| `StatusPages.IncidentOpAgreesIff` | backend/internal/store/incidents.go:20-400 | an accepted operation on an incident, page unchecked, keeps agreement if and only if that holds for the named components of other pages |
| `StatusPages.MaintenanceOpAgreesIff` | backend/internal/store/maintenances.go:17-279 | the same for maintenances |
| `StatusPages.CreateIncidentAgreesIff` | backend/internal/store/incidents.go:20-77 | for a new incident, in terms of the tables before the call |
| `StatusPages.CreateMaintenanceAgreesIff` | backend/internal/store/maintenances.go:17-58 | for a new maintenance, in terms of the tables before the call |
| `Uptime.TallyDay` | backend/internal/domain/uptime.go:60-82 | the inner loop sums the overlaps of maintenance and of down periods with the day |
| `Uptime.ComputeUptime` | backend/internal/domain/uptime.go:42-97 | the nested loops produce the report of the clipped days |
| `UptimeProofs.TimeInCountsInstants` | backend/internal/domain/uptime.go:99-107 | on disjoint periods summed overlaps are the number of instants with such a status |
| `UptimeProofs.ReportIsPointwise` | backend/internal/domain/uptime.go:42-97 | the overall percent is made of the instants of [max(window start, created), now) by their status |
| `UptimeProofs.DailyIsPointwise` | backend/internal/domain/uptime.go:52-90 | so is each day's percent, on the clipped day |
| `UptimeProofs.KindsShareTheInterval` | backend/internal/domain/uptime.go:60-90 | maintenance and down time together never exceed the interval |
| `UptimeProofs.ReportInRange` | backend/internal/domain/uptime.go:83-97 | all percents lie in [0, 100] |
| `UptimeProofs.RoundingErrorIff` | backend/internal/domain/uptime.go:123-126 | rounding moves a value by at most 0.005 exactly if it is at least -0.005 or already on the grid |
| `UptimeProofs.SliceIsEnough` | backend/internal/store/components.go:200-214 | the report over the rows since the window start is the report over the whole history |
| `UptimeProofs.TimelineIsDisjoint` | backend/internal/store/components.go:163-185 | the timelines the store keeps are disjoint |
| `UptimeProofs.ReachableUptime` | backend/internal/domain/uptime.go:38-97 | in every state that any operations reach, pages checked or not, the report computed from the slice counts instants and is in range |
| `UptimeProofs.RunKeepsThePast` | backend/internal/store/components.go:163-185 | no later run of any operations changes what a history says about an earlier instant |
| `UptimeProofs.HistoryRemembers` | backend/internal/store/components.go:163-185 | after any operations, the history still shows the status a component had at each instant |
| `UptimeMeaning.ReportTellsShares` | backend/internal/domain/uptime.go:38-126 | every percentage, of the window from midnight max(days, 1) - 1 days ago and of each of its days, is 100 times the instants neither under maintenance nor down over those not under maintenance, to two places, and 100 if there are none |
| `UptimeMeaning.ReachableReportTellsShares` | backend/internal/domain/uptime.go:38-126 | this holds of the report from the fetched rows in every state that any run of store operations reaches |
| `Topology.DeclareTopology` | backend/internal/queue/topology.go:51-131 | the declared bindings, and for every work queue the dead-letter key it is declared with |
| `Topology.ChannelRoutes` | backend/internal/queue/topology.go:51-90 | first publication and expired delay reach the one queue of the channel and no other |
| `Topology.WebhookRoutes` | backend/internal/queue/topology.go:72-100 | so for webhooks, on their own exchange and after a delay |
| `Topology.OtherChannelsRouteNowhere` | backend/internal/queue/topology.go:51-108 | a channel without a queue is routed nowhere |
| `Topology.DeadLetterRoutes` | backend/internal/queue/topology.go:111-131 | a rejected message reaches the dead-letter queue of its channel and no other |
| `Topology.StandardNamesOk` | backend/internal/queue/topology.go:14-48 | the names in use meet the conditions of the routing results |
| `Delivery.WantsEvent` | backend/internal/domain/subscriber.go:96-117 | page subscribers want every event; component subscribers want the events that name one of their components, and so none that names no component |
| `Delivery.DispatchJournalsChosen` | backend/internal/notify/engine.go:118-158 | exactly the chosen subscribers whose row was created get a journal row, pending and with no attempts |
| `Delivery.Engine.Publish` | backend/internal/notify/engine.go:162-173 | the message is copied to the routed queues unless the broker refuses it |
| `Delivery.Engine.DoDispatch` | backend/internal/notify/engine.go:118-158 | the fan-out loop creates rows first and publishes after, going on after failures; an error is collected for exactly the chosen subscribers without a row or a confirmed publication |
| `Delivery.Engine.DoRetry` | backend/internal/notify/engine.go:175-208 | one more attempt, then either a delayed copy or the failed mark, and what each failing call leaves behind |
| `Delivery.Engine.HandleSendFailure` | backend/internal/email/worker.go:151-163 | scheduled is acknowledged, exhausted is rejected, an error requeues |
| `Delivery.Engine.DoProcess` | backend/internal/webhookout/worker.go:63-116 | journal check, send, mark or retry, with the permanent-error branch and every disposition |
| `DeliveryOutcomes.DispatchDelivers` | backend/internal/notify/engine.go:118-173 | a dispatch puts exactly one copy for each interested subscriber whose row was created and message not refused into the queue of the channel, with the channel, address and event, and no other |
| `DeliveryOutcomes.CopiesSayWhatWasPublished` | backend/internal/notify/engine.go:162-208 | over every run, calls failing anywhere, all copies of a notification carry the channel, event and address it was published with |
| `DeliveryOutcomes.NothingToSend` | backend/internal/webhookout/worker.go:76-88 | a missing or sent row settles the message without a call |
| `DeliveryOutcomes.UnusableIsDeadLettered` | backend/internal/webhookout/worker.go:89-98 | a message that cannot be addressed or rendered is dead-lettered without a call |
| `DeliveryOutcomes.DeliveredIsSent` | backend/internal/webhookout/worker.go:99-116 | a successful send is one call, and the row is sent with its attempts as they were |
| `DeliveryOutcomes.PermanentErrorIsFinal` | backend/internal/webhookout/worker.go:99-108 | on every channel but email a permanent error is acknowledged: rows and delayed copies stay, and over every further smooth run no copy exists and the sender is not called for it |
| `DeliveryOutcomes.FailureIsRetried` | backend/internal/notify/engine.go:175-208 | any other failure, by email a permanent one too, is one call and one attempt: after the first three a copy waits 1, 5 or 30 minutes, then the message is dead-lettered and the row failed |
| `DeliveryOutcomes.UnrecordedRequeues` | backend/internal/webhookout/worker.go:76-116 | a row that cannot be read, or a send that cannot be recorded, puts the message back |
| `DeliveryOutcomes.TroubleRequeues` | backend/internal/notify/engine.go:175-208 | a failing call of a retry puts the message back, with what was counted and scheduled before that call |
| `DeliveryRuns.BothRoutesAgree` | backend/internal/queue/topology.go:51-108 | for every deliverable channel both publications give one copy in the same queue |
| `DeliveryRuns.RejectedGoesToDlq` | backend/internal/queue/topology.go:111-131 | rejecting gives one copy in the dead-letter queue |
| `DeliveryRuns.DeclaredDeadKey` | backend/internal/queue/topology.go:51-131 | the queue of every deliverable channel was declared with the dead-letter key of that channel |
| `DeliveryRuns.PlacesExcludeEachOther` | backend/internal/webhookout/worker.go:63-130 | queued, delayed, dead-lettered and consumed exclude each other |
| `DeliveryRuns.DeliverKeepsInv` | backend/internal/webhookout/worker.go:63-130 | a delivery moves its message from its queue to exactly one place |
| `DeliveryRuns.RunConserves` | backend/internal/webhookout/worker.go:63-130 | so does every run with successful infrastructure calls |
| `DeliveryRuns.EveryMessageIsSomewhere` | backend/internal/notify/engine.go:118-208 | from the empty start every journalled message is in exactly one place |
| `DeliveryKept.NeverLost` | backend/internal/webhookout/worker.go:63-130 | through any run, with calls failing, publications unconfirmed and messages redelivered, a notification with a copy in its work queue, in delay or dead-lettered keeps one, until it is acknowledged with its row sent or deleted or its receiver unusable |
| `DeliveryKept.PublishedIsNeverLost` | backend/internal/notify/engine.go:118-208 | at least once: from the empty start, this holds of every published notification ever after |
| `DeliveryRuns.SentIsNeverSentAgain` | backend/internal/webhookout/worker.go:76-83 | once a row is sent, no later processing calls the sender, whatever fails or is redelivered |
| `DeliveryRetries.AlwaysFailingSender` | backend/internal/notify/engine.go:175-208 | in every run whose store and broker calls succeed and in which each delivery of a notification fails, whatever happens to others in between, calls equal attempts and are at most four; before the fourth the row is pending and the message queued or waiting, after it failed and dead-lettered |
| `DeliveryRetries.NextFailureComes` | backend/internal/notify/engine.go:175-208 | before the fourth call the next one is at most one expiry away |
| `DeliveryInterleaving.CountKeepsInv` | backend/internal/notify/engine.go:180-187 | the counter gives each worker an attempt number of its own |
| `DeliveryInterleaving.AtMostThreeDelayedPublications` | backend/internal/notify/engine.go:175-208 | in every interleaving, with rows deleted at any time, at most three delayed copies, one per attempt 1, 2, 3 with delays of 1, 5 and 30 minutes |
| `DeliveryInterleaving.CountingLowersTheMeasure` | backend/internal/notify/engine.go:180-208 | while the row exists the retries left never grow, and they fall exactly when an attempt is counted |
| `DeliveryInterleaving.SentCanBeOverwritten` | backend/internal/email/worker.go:78-131 | a reachable interleaving in which a sent row becomes failed and the sender is called again |
| `DeliverySent.SentStaysSentIff` | backend/internal/email/worker.go:78-131 | with workers interleaved call by call, a sent row stays sent and is not sent again over all further runs if and only if no worker on it is about to send or to give up and the attempts still to be counted stay within the schedule |
| `Billing.FirstDue` | backend/internal/store/db/billing.sql.go:174-222 | due rows ordered by period end, up to the limit |
| `Billing.Service.UpdatePaymentResult` | backend/internal/store/db/billing.sql.go:285-328 | status and time are set, provider id and receipt only filled in |
| `Billing.Service.DoCheckout` | backend/internal/billing/service.go:81-136 | every call of a checkout, and the state each failing call leaves |
| `Billing.Service.DoWebhook` | backend/internal/billing/service.go:140-165 | unknown, repeated and late events do nothing; success activates |
| `Billing.Service.DoActivate` | backend/internal/billing/service.go:168-204 | payment, subscription and account in this order |
| `Billing.Service.DoCancel` | backend/internal/billing/service.go:207-214 | cancelling marks the subscription for its period end |
| `Billing.Service.DoDowngrade` | backend/internal/billing/service.go:314-321 | canceled, free, and the account free |
| `Billing.Service.DoRenewOne` | backend/internal/billing/service.go:233-311 | charge, renewal, grace period and the downgrade at the limit |
| `Billing.Service.ProcessDue` | backend/internal/billing/service.go:219-231 | the sweep handles a due listing in order and stops at the first error |
| `BillingTerms.CheckoutOffers` | backend/internal/billing/service.go:81-136 | a checkout completes exactly for premium, a new payment id, an answering provider with a new payment id and four successful calls; it records a pending payment of the period and makes the subscription pending for it |
| `BillingTerms.SuccessActivates` | backend/internal/billing/service.go:138-204 | a first success is granted exactly with five successful calls: the payment is marked with time and receipt, the account premium from now on for the period on record, with the card that came with it |
| `BillingTerms.IgnoredEvents` | backend/internal/billing/service.go:140-165 | unknown payments and repeated, late or pending events change nothing |
| `BillingTerms.RefusalIsRecorded` | backend/internal/billing/service.go:154-163 | a failure or refund of an unpaid payment is recorded with its time, and nothing else |
| `BillingTerms.RunKeepsTerms` | backend/internal/store/db/billing.sql.go:285-328 | over every run, calls failing anywhere, a payment keeps its account, period and provider id |
| `BillingTerms.BoughtIsGranted` | backend/internal/billing/service.go:81-204 | whatever happens between a checkout and the first success of its payment, the account gets exactly the bought period |
| `BillingTerms.PaidRenewal` | backend/internal/billing/service.go:233-294 | a paid renewal: one more succeeded payment with provider id, receipt and time, and the next period of the same length from now on |
| `BillingTerms.UnpaidRenewal` | backend/internal/billing/service.go:233-321 | an unpaid one: one more failed payment and attempt; past due until the retry, or at the limit canceled and free |
| `BillingTerms.CancelledRenewal` | backend/internal/billing/service.go:233-321 | a cancelled one: no payment, canceled and free |
| `BillingTerms.DueIffEnded` | backend/internal/store/db/billing.sql.go:172-222 | while checkouts start from free only, due is exactly every premium subscription whose period has ended |
| `BillingTerms.SettingsAreValid` | backend/internal/billing/service.go:44-66 | settings that are not positive become three attempts and 72 hours |
| `BillingCancel.CancelMarks` | backend/internal/billing/service.go:207-214 | a cancellation completes exactly with two successful calls; it marks the subscription, and nothing else about the books changes |
| `BillingCancel.CancelledIsNeverCharged` | backend/internal/billing/service.go:207-238 | from then on, calls failing anywhere and until a payment of the account succeeds, no sweep creates or changes a payment of the account, and until a sweep lists it plan and period end stay |
| `BillingCancel.CancelRunsOut` | backend/internal/billing/service.go:207-246 | over runs: the first completed sweep that lists it, at or after its period end, leaves subscription and account free, and free they stay |
| `BillingRuns.StepIsSafe` | backend/internal/billing/service.go:81-321 | any step, failing anywhere, keeps grants backed by payments and succeeded absorbing |
| `BillingRuns.RunIsSafe` | backend/internal/billing/service.go:138-204 | so does every run; undisturbed runs grant every succeeded payment |
| `BillingRuns.GrantsNeverExceedPayments` | backend/internal/billing/service.go:138-204 | an account never got more periods than it has succeeded payments, and equally many in undisturbed runs |
| `BillingRuns.ActivationLostIff` | backend/internal/billing/service.go:168-204 | a first success webhook leaves its payment without a period exactly if its third or fourth call fails |
| `BillingLosses.RenewalLosesIff` | backend/internal/billing/service.go:252-311 | a renewal loses the period of a successful charge exactly if its third call fails; the subscription is then as due as before |
| `BillingLosses.StepLosesIff` | backend/internal/billing/service.go:81-321 | any step keeps every succeeded payment granted exactly unless its failing call is one of these |
| `BillingLosses.RenewalCountsIff` | backend/internal/billing/service.go:298-311 | a failing charge is counted exactly if the call that marks it and the one that updates the subscription succeed; else subscriptions and counts stay as they are |
| `BillingLosses.StepCountsIff` | backend/internal/billing/service.go:219-311 | any step counts all its failing charges exactly unless one of these calls fails, after which that subscription is as due as before |
| `BillingPlans.RenewalPartsIff` | backend/internal/billing/service.go:233-321 | a renewal leaves account and subscription plan apart exactly if the call after the subscription write of a downgrade fails |
| `BillingPlans.StepPartsIff` | backend/internal/billing/service.go:81-321 | any step keeps the plans in agreement exactly unless it is cut between its two plan writes and they differ |
| `BillingLifecycle.StepKeepsSubs` | backend/internal/billing/service.go:81-321 | every step, failing anywhere, keeps: active has no dunning attempts, past_due is premium and within the limit, canceled is free, the counter is the number of counted failures and these are a retry interval apart |
| `BillingLifecycle.RunKeepsSubs` | backend/internal/billing/service.go:81-321 | so does every run |
| `BillingLifecycle.ReachableSubIsOk` | backend/internal/billing/service.go:81-321 | so it holds of every subscription in every reachable state, whichever calls failed |
| `BillingGrants.PremiumIsPaidFor` | backend/internal/billing/service.go:81-321 | in every run, calls failing anywhere, a premium subscription or account has a succeeded payment that was granted |
| `BillingGrants.StepMovesForCause` | backend/internal/billing/service.go:168-311 | no step, cut short anywhere, moves a period end without a grant or a counted failure |
| `BillingRuns.LostActivationStaysLost` | backend/internal/billing/service.go:148-156 | a succeeded payment without a period never gets one |
| `BillingDunning.RenewalOutcome` | backend/internal/billing/service.go:233-311 | subscription, plan and failure count after a completed renewal |
| `BillingLifecycle.RenewalKeepsSubs` | backend/internal/billing/service.go:233-311 | a renewal of a due row, cut short anywhere, keeps status, counter and spacing |
| `BillingDunning.RenewedIsNotDue` | backend/internal/billing/service.go:233-311 | a completed renewal leaves its row not due for the clock of the sweep |
| `BillingDunning.SweepDrains` | backend/internal/billing/service.go:219-231 | on any books an error-free sweep makes exactly the listed accounts not due, and lowers the due count by min(limit, due) |
| `BillingDunning.RunKeepsConsistent` | backend/internal/billing/service.go:81-321 | every run of completed steps keeps account and subscription plan in agreement, besides the above |
| `BillingDunning.ReachableIsConsistent` | backend/internal/billing/service.go:81-321 | in every run status, counter and spacing fit together; without a failing call account and subscription plan agree as well |
| `BillingFailures.LimitMeansFree` | backend/internal/billing/service.go:286-311 | in every state that steps failing anywhere, with checkouts from free, reach, the limit is not exceeded and at the limit the subscription is free; without a failing call the account is as well |
| `BillingFailures.DunningEndsInFree` | backend/internal/billing/service.go:219-311 | in every run of completed steps in which all charges of an active premium account fail, it stays premium and in grace before the limit, and the last sweep that lists it leaves it canceled and free |
| `BillingSwept.CheckoutKeepsSweptIff` | backend/internal/billing/service.go:119-135 | a completed checkout keeps every premium subscription sweepable exactly if it starts from free |
| `BillingSwept.StepKeepsSwept` | backend/internal/billing/service.go:81-321 | every other step keeps it too, whichever call fails |
| `BillingSwept.RunKeepsSwept` | backend/internal/billing/service.go:81-321 | over every run with checkouts from free only, calls failing anywhere, each premium subscription keeps a period end and a status the sweep selects |
| `BillingSwept.CheckoutFromPremiumSticks` | backend/internal/billing/service.go:119-135 | a completed checkout on premium leaves a premium subscription pending |
| `BillingSwept.StuckIsNeverDue` | backend/internal/store/db/billing.sql.go:172-222 | such a subscription is never due again and keeps its plan until a payment of the account succeeds |
| `Alerts.OpenIncidentByDedup` | backend/internal/store/incidents.go:79-90 | the open incident of the page and key, if any |
| `Alerts.CreateWebhookIncident` | backend/internal/api/integrations.go:129-167 | the incident for the mapped components of the page; a conflict of keys is success without change |
| `Alerts.IngestAlert` | backend/internal/api/integrations.go:97-127 | look up, then create, resolve or nothing |
| `Alerts.IngestSetsKey` | backend/internal/api/integrations.go:97-127 | an alert decides whether its own key is open and leaves all others |
| `Alerts.LastAlertWins` | backend/internal/api/integrations.go:97-167 | after any list of alerts a key is open as its last alert says, or as before |
| `Alerts.RepeatIsNoop` | backend/internal/api/integrations.go:97-167 | repeating an alert changes nothing |
| `AlertEffects.FiringRaises` | backend/internal/api/integrations.go:129-167 | a firing alert whose key is not open creates one incident, investigating; every mapped live component of the page then shows the worst of what was imposed and the status of the impact, hence at least that; all other components are as they were |
| `AlertEffects.LostRaceIsForgiven` | backend/internal/api/integrations.go:150-163 | a firing alert that saw nothing open and finds its key open by now succeeds without a change |
| `AlertEffects.OldNewsIsNoop` | backend/internal/api/integrations.go:97-127 | an alert without a key, or one that says what is known, changes nothing |
| `AlertEffects.ResolvingCloses` | backend/internal/api/integrations.go:112-127 | a resolving alert resolves the open incident of its key now, and its components follow the rest |
| `AlertEffects.FireThenResolve` | backend/internal/api/integrations.go:97-167 | after firing and resolving every raised component shows the derivation over the rows there were before, and the others what they showed |
| `AlertEffects.LastAlertWinsAmongEdits` | backend/internal/api/integrations.go:97-167 | the open set follows the last alert per key whatever operations happen in between that resolve, reopen, create or delete no incident with a key |
| `Alerts.StepKeepsSystemInv` | backend/internal/api/integrations.go:97-167 | every step of concurrent deliveries and of other, page-checked store operations keeps the store invariant |
| `Alerts.InterleavingsKeepOneOpen` | backend/internal/api/integrations.go:150-163 | in every interleaving of lookups, actions and any other store operations at most one incident is open per page and key |
| `Alerts.InterleavingsKeepInv` | backend/internal/api/integrations.go:97-167 | and the stored statuses agree with the derivation throughout, if the other operations are page-checked |
| `Alerts.FiringLeavesKeyOpen` | backend/internal/api/integrations.go:129-167 | a late firing alert, conflict or not, leaves its key open |
| `SiblingOrder.SortSorts` | backend/internal/domain/tree.go:44-51 | siblings are ordered by position and name, none lost or repeated |
| `SiblingOrder.SortIsStable` | backend/internal/domain/tree.go:44-51 | siblings that tie keep their order |
| `SiblingOrder.SiblingsInOrder` | backend/internal/domain/tree.go:44-51 | by position, and by name where positions are equal |
| `SiblingOrder.NamesInByteOrder` | backend/internal/domain/tree.go:44-51 | names compare at their first difference, byte by byte |
| `ComponentForest.KidsAndRoots` | backend/internal/domain/tree.go:25-40 | children and roots are exactly the components with and without a listed other parent, once each and ordered |
| `ComponentForest.KidsNameTheirParent` | backend/internal/domain/tree.go:25-40 | below a component are exactly the others that name it as parent; roots name nobody listed, or themselves |
| `ComponentForest.DepthIsBounded` | backend/internal/domain/tree.go:19-42 | a parent chain that ends is shorter than the list |
| `ComponentForest.FlattenCounts` | backend/internal/domain/tree.go:19-42 | below a list of nodes a component is reached once if its ancestor is listed, and else never |
| `ComponentForest.ForestHoldsGroundedOnce` | backend/internal/domain/tree.go:15-42 | the forest holds each component whose parent chain ends exactly once and none on or below a cycle |
| `ComponentForest.EffectiveIsWorstOfSubtree` | backend/internal/domain/tree.go:53-61 | the effective status is the worst of the subtree, exactly unless a leaf has an unknown status |
| `ComponentTree.SortNodes` | backend/internal/domain/tree.go:44-51 | the nodes in the stable sibling order |
| `ComponentTree.BuildComponentTree` | backend/internal/domain/tree.go:19-42 | new nodes, one per component, whose children are its sorted children, and the sorted roots |
| `ComponentTree.Link` | backend/internal/domain/tree.go:25-35 | the second loop puts each node below its parent or among the roots, in list order |
| `ComponentTree.EffectiveStatus` | backend/internal/domain/tree.go:55-61 | on the linked nodes the recursion ends and gives the effective status |
| `ComponentTree.RootStatuses` | backend/internal/domain/tree.go:15-61 | for every root of the built tree the answer is the worst status of its subtree, exactly unless the root is a leaf with an unknown status |
| `ServiceClosure.FetchAll` | backend/internal/importer/statuspal.go:174-192 | whenever the worklist loop stops: its end, or a failing request for a reachable service; where answers carry the id asked for, nothing is requested twice and exactly the reachable services are collected |
| `ServiceClosure.FetchComponents` | backend/internal/importer/statuspal.go:169-217 | the collected services by increasing id, or an error exactly if the roots are not listed or a request fails; where answers carry the id asked for, success exactly if all reachable services are answered, with exactly these |
| `ServiceAnswers.FetchesExactlyIff` | backend/internal/importer/statuspal.go:174-192 | whatever the answers carry: with all reachable services answered, the loop ends with exactly these if and only if every such answer carries the id asked for |
| `ServiceAnswers.HonestStops` | backend/internal/importer/statuspal.go:174-192 | where answers carry the id asked for, the loop stops on every graph, cyclic or shared, whichever requests fail |
| `ServiceLoops.FetchEndsIff` | backend/internal/importer/statuspal.go:174-192 | whatever the answers carry: with all reachable services answered, the loop ends if and only if it never comes to a trap |
| `ServiceLoops.TrappedForever` | backend/internal/importer/statuspal.go:174-192 | from a trap on there is always an id left to look at |
| `ServiceAnswers.CirclesForever` | backend/internal/importer/statuspal.go:181-192 | an id that is answered by a collected service naming it as its only child is requested for ever |
| `ServiceAnswers.WrongAnswersLoop` | backend/internal/importer/statuspal.go:174-192 | such a server exists: the loop never ends |
| `ServiceClosure.SortedIds` | backend/internal/importer/statuspal.go:194-198 | the collected ids in strictly increasing order |
| `ServiceClosure.ExternalIdsDiffer` | backend/internal/importer/statuspal.go:200-216 | different services get different external ids |
| `ImportedContent.ConvertedReadsBack` | backend/internal/importer/statuspal.go:200-217 | a component has the name, texts and ids of its service, which read back, and the status of its incident type |
| `ImportedContent.ParentsCorrespond` | backend/internal/importer/statuspal.go:200-217 | a service is below another exactly if its component is |
| `ImportStore.Store.SetExternalMapping` | backend/internal/store/import.go:81-93 | the mapping is written or replaced, or nothing changes |
| `Importer.ResolveGroup` | backend/internal/importer/importer.go:220-233 | one group per name and run |
| `Importer.ImportComponent` | backend/internal/importer/importer.go:64-106 | skip, create or fail; what is written, in the group of its name, and that a known component is not written in skip mode |
| `Importer.ImportComponents` | backend/internal/importer/importer.go:62-106 | every component is counted once; without failing calls all are mapped; known ones are left alone |
| `Importer.LinkParents` | backend/internal/importer/importer.go:107-126 | with distinct ids every component ends below its mapped parent whatever the order; linked ones are left alone |
| `Importer.ImportIncident` | backend/internal/importer/importer.go:235-270 | the incident with its first body, its later updates and the mapping, in this order |
| `ImportedContent.IncidentWritesSay` | backend/internal/importer/importer.go:207-270 | the incident with its fields and first text, each further update once and in order, then the mapping; every known component with the status of the impact |
| `ImportedContent.KnownIdsSplit` | backend/internal/importer/importer.go:246-254 | known external ids become our ids in order, unknown ones are dropped |
| `Importer.ImportMaintenance` | backend/internal/importer/importer.go:272-291 | the maintenance and the mapping |
| `ImportedContent.MaintenanceWritesSay` | backend/internal/importer/importer.go:272-291 | the maintenance with its fields, window and known components, then the mapping |
| `Importer.ImportIncidents` | backend/internal/importer/importer.go:128-147 | every incident is counted once; known ones are left alone |
| `Importer.ImportMaintenances` | backend/internal/importer/importer.go:149-168 | the same for maintenances |
| `Importer.ImportSubscribers` | backend/internal/importer/importer.go:170-203 | the same for subscribers, where a refused one counts as skipped |
| `ImportedContent.SubscriberWritesSay` | backend/internal/importer/importer.go:170-203 | the subscriber with the address, then the mapping |
| `Importer.Run` | backend/internal/importer/importer.go:47-206 | the counts add up, and in skip mode as many entities are counted as created as are newly mapped; a skip-mode run on a settled source writes nothing; without failing calls a run settles the source, and writes nothing exactly if it was settled |
| `Importer.RunTwice` | backend/internal/importer/importer.go:47-206 | after a run without failing calls a skip-mode run changes nothing, whichever of its calls fail |
| `ICalText.Builder.WriteFolded` | backend/internal/feed/ical.go:53-73 | the loop writes the pieces of the line, each with its CRLF |
| `ICalText.UnfoldPrinted` | backend/internal/feed/ical.go:53-73 | unfolding and splitting printed lines gives them back |
| `ICalText.PrintedFits` | backend/internal/feed/ical.go:53-73 | every physical line is at most 75 octets |
| `ICalText.PiecesAreFull` | backend/internal/feed/ical.go:53-73 | all pieces of a folded line but the last are 75 octets, all but the first begin with a space |
| `ICalText.UnescapeEscape` | backend/internal/feed/ical.go:75-85 | unescaping escaped text gives the text without carriage returns |
| `ICalText.UnescapeGivesBackIff` | backend/internal/feed/ical.go:75-85 | unescaping gives back the text itself exactly if it has no carriage return |
| `ICalText.EscapedIsOneLine` | backend/internal/feed/ical.go:75-85 | escaped text has no line breaks and no bare separators |
| `ICal.BuildICal` | backend/internal/feed/ical.go:12-40 | the builder's text is the folded form of the calendar's logical lines |
| `ICal.FeedReadsBack` | backend/internal/feed/ical.go:12-73 | for all inputs the feed unfolds to its logical lines and no physical line is too long |
| `ICal.TitlesComeBack` | backend/internal/feed/ical.go:23-36 | a reader of the feed gets the titles of the maintenances, in order, without carriage returns |
| `ICalEvents.TimesComeBack` | backend/internal/feed/ical.go:23-36 | a reader gets start and end of every maintenance, and the time of the feed, in order |
| `ICalEvents.IdsComeBack` | backend/internal/feed/ical.go:23-50 | and their ids, and whether they are only planned |
| `ICalEvents.DescriptionsComeBack` | backend/internal/feed/ical.go:23-36 | and the descriptions that are not empty |
| `ICalEvents.LinksComeBack` | backend/internal/feed/ical.go:20-36 | and a link to the maintenances of the page |
| `ICalEvents.CalendarReadsBack` | backend/internal/feed/ical.go:12-40 | the feed is one calendar of version 2.0 with the page name, which reads back |
| `Uuids.FormatThenParse` | backend/internal/subscription/token.go:53-58 | printed ids parse back |
| `Uuids.OtherFormsParse` | backend/internal/subscription/token.go:53-58 | ids are also read with a URN prefix, in braces and without hyphens |
| `Uuids.OnlyThoseForms` | backend/internal/subscription/token.go:53-58 | nothing else is an id: the four lengths, hyphens in their places, the prefix |
| `Base64Url.EncodeThenDecode` | backend/internal/subscription/token.go:153-186 | every byte string survives base64url |
| `Base64Url.EncodedIsPlain` | backend/internal/subscription/token.go:189-193 | encoded text has no dots |
| `Base64Url.SymbolsAreTheTable` | backend/internal/subscription/token.go:153-193 | the symbols are those of RFC 4648, table 2 |
| `Base64Url.GroupsAreNumbers` | backend/internal/subscription/token.go:153-193 | three bytes are the four symbols of the same number, two and one are padded with zero bits, groups stand side by side |
| `Base64Url.DecodesIff` | backend/internal/subscription/token.go:153-186 | text decodes exactly if, line breaks aside, all its symbols are of the table and none is left over |
| `Decimal.FormatThenParse` | backend/internal/subscription/token.go:78-101 | printed times parse back exactly if they fit in 64 bits |
| `Decimal.ParsedIsDecimal` | backend/internal/subscription/token.go:78-101 | what is read is an optional sign, digits, and a number that fits |
| `Tokens.TimeIsExactIff` | backend/internal/subscription/token.go:105-106 | the expiry comparisons are the meant ones exactly up to the last second time.Unix represents |
| `Tokens.PageAccessRoundTrip` | backend/internal/subscription/token.go:73-109 | a page access token gives its page back exactly when not expired |
| `Tokens.SlackStateRoundTrip` | backend/internal/subscription/token.go:111-147 | a Slack state gives its page back exactly within its hour |
| `Tokens.KindsShareTheirFormat` | backend/internal/subscription/token.go:69-147 | each of the two parsers reads the other kind of token, with its time as its own: until an hour after the expiry, or not after the issue |
| `Tokens.AcceptedIsSigned` | backend/internal/subscription/token.go:82-104 | what both parsers accept is an id, a number and their signature |
| `Tokens.AcceptedIsInTime` | backend/internal/subscription/token.go:73-147 | they are accepted exactly not after their expiry, or within an hour of their issue |
| `Tokens.SignatureIsMac` | backend/internal/subscription/token.go:189-193 | a signature is the MAC, readable again, so messages with different MACs have different signatures |
| `Tokens.AccessLinkRoundTrip` | backend/internal/subscription/token.go:152-187 | an access link gives page and email back exactly when not expired, for every email |
| `Tokens.AcceptedLinkIsSigned` | backend/internal/subscription/token.go:158-187 | an accepted link is an id, an email, a time and their signature, and not expired |
| `Tokens.UnsubscribeRoundTrip` | backend/internal/subscription/token.go:42-63 | an unsubscribe token gives its subscriber back |
| `Tokens.UnsubscribeAcceptsIff` | backend/internal/subscription/token.go:49-63 | the accepted tokens are exactly an id and its signature |

## Assumptions

- `started_at` of a history row is the transaction's now(), the default in
  backend/migrations/00004_components.sql:41; rows created at one instant are listed in the order of creation.
- Clocks do not run backwards between transactions.
- The partial unique index on open dedup keys is backend/migrations/00012_webhook_integrations.sql:35-37, the one
  on provider payment ids backend/migrations/00013_billing.sql:56-57.
- Component ids of a list are distinct (primary keys).
- A failing repository call leaves its table unchanged.

## Left out

- ServiceClosure.FetchAll: the method is given a server on which the loop stops, since it must end; when it stops is stated in `ServiceAnswers.HonestStops` and `ServiceLoops.FetchEndsIff`.
- ServiceClosure.FetchComponents: as for `FetchAll`.
- ServiceLoops.FetchEndsIff: for servers that answer every reachable service; where a request may fail, `FetchAll` says what is left when it does.
- Importer.Run: settling the source needs distinct external component ids and no failing call; in update mode components are created again, so repeatability is stated for skip mode.
- UptimeProofs.ReportIsPointwise: percentages are reals and durations unbounded integers, not float64 and int64; the handler caps the window at 365 days.
- DeliveryRuns.EveryMessageIsSomewhere: for runs in which store and broker calls succeed and nothing is delivered twice; in all runs there may be several copies, and `DeliveryKept.PublishedIsNeverLost` says that there is one as long as it is needed.
- BillingDunning.ReachableIsConsistent: the agreement of the two plans is for runs of completed steps; the exact call that parts them is in `BillingPlans`.
- StatusHistories.OpenIsActive: for incidents whose life is set by ApplyStatusChange; the importer can create one that is resolved without an end, which is open for its key and imposes nothing, but imported incidents have no key.
- StatusStore.Store.CreateComponent: name, group, parent and display columns are not in the tables; no status depends on them.
- StatusStore.Store.CreateIncident: the initial feed entry and the texts are not in the tables; no status depends on them.
- StatusStore.Store.UpdateIncident: title, impact, postmortem and visibility are not in the tables.
- StatusStore.Store.AddIncidentUpdate: the created feed entry is not in the tables.
- StatusStore.Store.CreateMaintenance: texts and the schedule are not in the tables.
- StatusStore.Store.UpdateMaintenance: texts and the schedule are not in the tables.
- Delivery.Engine.DoProcess: messages are given decoded; bodies that cannot be decoded and ids that cannot be read are rejected before any of this.
- Billing.Service.DoCheckout: amount, idempotency key and provider name are not in the ledger.
- Billing.Service.DoActivate: the provider field is not in the ledger.
- Billing.Service.DoRenewOne: amount, idempotency key and provider name are not in the ledger.
- Alerts.IngestAlert: parsing of Grafana and Prometheus payloads and the mapping rules are parameters.
- Concurrent transactions: each store method is one atomic step.
- Races between ProcessDue, Cancel and HandleWebhook: each is one step; the code takes no lock.
- Calendar arithmetic of `BillingPeriod.Advance`, payment amounts and the provider field: a parameter, or not modelled.
- Transactional email without a journal row: it has no state to reason about.
- The max channel has a queue but no worker.
- Cursor pagination of the StatusPal adapter: it ends when the remote server says so.
- HMAC and hashing: any function from secret and message to bytes.
- Time zones and time formatting in iCal: a time is given by its UTC fields.
- HTTP handlers, generated types, rendering of mail, Slack, Telegram, SVG and RSS, plan gating, token scopes.
