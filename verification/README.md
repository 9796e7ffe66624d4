# A verified model of the operations backend

The backend keeps a portfolio of projects, the tasks under them and the people who carry them. Every
change writes an audit record and an event in the same transaction as the row it changes. The events
leave through a transactional outbox: drain workers claim unpublished rows, delivery workers apply each
event once per subscribed handler, and browsers follow along on an event stream. This project models
that behaviour in Dafny and proves what holds of it over every input and every run.

## What is modelled

**The event bus** (`Protocol`, and the `Bus…` modules) is a step machine. Its state holds the outbox
rows, the committed claims, every drain worker and delivery worker with what its open transaction has
done so far, the pending on-commit hooks, the broker's two queues as multisets, and the operators'
selections. A step is one commit, one rollback, one statement outside a transaction, one message taken or
put, or one worker killed; everything that is not determined is an argument of the step. `SKIP LOCKED`
is the condition that a claim takes the oldest rows no open claim holds; the unique key is the condition
that an insert waits while another transaction holds an uncommitted claim on the same pair; late
acknowledgement is the return of the message when a worker is killed. History that no step reads counts
committed handler runs, dispatches, unpublished periods and frames.

On that machine: `BusInvariants` and `BusSafety` prove exactly-once effects, that no event is lost, that
drains never overlap, and that the engine's audit records and events match one to one, over every run;
`BusDrain` that concurrent draining is one pass over the sorted backlog, in a known number of passes;
`BusBookkeeping` that a row shows what became of it; `BusCorrelation` that a decision has one correlation
id; `BusTermination` that the cascade of events the bus causes itself ends; `BusScoring`, `BusQuiet` and
`BusCycle` what would become of it if the engine consumed what it emits, with the stored scores the engine
reads and writes; `BusRecovery` that a bus left in health comes to rest and what a re-queue achieves;
`BusFailures` the runs on which promises fail, `BusRescue` which deliveries can still be made after them,
`BusUndone` a run on which a re-queue is undone, and `BusRoster` follows the events of the roster.
`Transport` is the same protocol as the tasks execute it, over mutable tables and queues: its `Valid`
says the tables are a state a run of the machine reaches, so every theorem about runs is about them.
`Outbox`, `Registry`, `Engine`, `Scoring` and `Retry` are the parts: one row and its bookkeeping, the
handler registry, the one handler that emits, the table of stored scores, and the retry budget.
`ScoreTrail` (with `Decimals`) reads the engine's audit records back to the stored scores.

**Around the bus:** `Roster` (with `Activity`) replays the audit trail of people and roles to the
present; `Placement` (with `Workflows`) keeps a project on a state of its own graph; `EventStream` is the
parser of sections 9.2.5 and 9.2.6 of the WHATWG HTML Standard and `Sse` the frames it reads back;
`RoutingFilter` compares the stream's project filter with the bus's routing and `Addressing` the events
with both; `Paging` and `RosterOrder` (with `Lexicographic` and `Sorting`) are the list reads; `Codes`
and `MemberCodes` mint business codes; `OwnerLoad` is the grouped load query. `Text`, `Sums`, `Prelude`,
`Catalog` and `Envelopes` are shared.

## Where the code falls short of its documentation

The model follows the code. Nine promises made in comments do not hold as stated; each has a lemma that
shows it and one that says exactly when the promise is kept.

* `backend/apps/events/tasks.py:17-20` says a drain can dispatch twice but never zero times. The order is
  the opposite: rows are committed as published first and deliveries are queued from on-commit hooks
  after. `BusFailures.KilledDispatcherLosesTheEvent` is a run of four steps that loses a delivery, and
  `BusSafety.StepLosesNothing` says that no other kind of step ever loses one. What is lost so stays lost,
  the operator's re-queue included (`BusFailures.LostForever`): `BusRescue.RecoverableExactlyWhen` says
  from which states a delivery can still be made.
* `backend/apps/events/admin.py:120-135` says only dead-lettered rows are touched. The selection is read
  before its rows are saved, so when two operators select one row the second re-queue takes it whatever
  has become of it (`BusFailures.SecondRequeueTakesAHealthyRow`). The selected rows stay dead-lettered
  through every step but the re-queue of a row that two have selected
  (`BusFailures.StepKeepsSelectedDead`), and nobody is second until two selections overlap
  (`BusFailures.StepKeepsSelections`). The ledger absorbs the second dispatch
  (`BusRecovery.ClaimedNeverReapplied`).
* `backend/apps/events/models.py:209-215` calls a re-queue a real retry for the handler that failed. An
  older delivery of the row whose last attempt has failed by then writes its dead letter after the
  re-queue, and the row is dead again although every handler applies it: `BusUndone.RequeueIsUndone` is
  such a run, and `BusRecovery.RequeueRecovers` the exact condition.
* `backend/apps/events/tasks.py:80-86` re-queues after a full batch; with a batch size of zero every
  batch is full (`BusFailures.ZeroBatchLoops`). `BusCycle.DeployedEndsExactlyWhen`: with the deployed
  registry the bus left to itself always stops if and only if the batch size is positive.
* `backend/apps/prioritization/handlers.py:12-14` says a handler that consumed what it emits would recompute
  forever. A lone announcement would not: its score is stored, so the next recomputation is no news
  (`Scoring.SecondRecomputeIsQuiet`) and the cascade dies out (`BusQuiet.LoneEventDiesOut`), as it does
  whenever the pending events show each project in one way (`BusQuiet.AgreedCascadeSettles`). Two pending
  events that show one project in two ways, from two days say, would keep finding each other's score
  stored. `BusCycle.CascadeEndsExactlyWhen` is the exact condition.
* `backend/apps/prioritization/models.py:142-143` says that the history of a score lives in its
  `PRIORITY_CHANGED` records. An operator's rebuild moves scores and records nothing
  (`ScoreTrail.RebuildIsUntold`), so that the next record starts from a score none ended at;
  `ScoreTrail.ToldExactlyWhen` is the exact condition. As text the records do not join at the bounds either:
  a clamped score is recorded as "0" or "100" and read back from its column as "0.00" or "100.00"
  (`ScoreTrail.BoundsDoNotJoin`, `ScoreTrail.RecordsChain`).
* `backend/apps/portfolio/handlers.py:46` subscribes the snapshot builder to the three member topics,
  whose payloads name no project. It never applies one
  (`BusRoster.RosterEventsAreNeverSnapshot`), and re-queueing such a row dead-letters it again
  (`BusRecovery.RosterRowsAreDeadLetteredAgain`). Which rows the deployed handlers can all apply is
  `BusRecovery.DeployedApplies`.
* `backend/apps/portfolio/models.py:114-117` and `backend/apps/work/models.py:292-293` say that deleting
  a row never causes its code to be reused. Deleting the newest does
  (`Codes.DeletingTheNewestReusesItsCode`); `Codes.ReusedExactlyWhen` is the exact condition, and without
  deletes codes are never reused.
* `backend/config/sse.py:17-20` says comments never disturb the id a browser comes back with. A browser
  that has come back holds its id while the new stream's id buffer is empty, and the first empty line
  copies the buffer over it: after a second drop it sends no id and is owed no reset
  (`Sse.SecondDropGoesUnannounced`). `Sse.IdleFramesKeepTheIdExactlyWhen` and `Sse.NextHeaderExactlyWhen`
  say when the id survives.

`backend/config/sse.py:108` takes any text as the project to follow. `RoutingFilter.AgreesExactlyWhen` says
for which texts the stream lets through what the bus routes to that project: all but the bare prefixes of
projects, blockers and notes, the codes of tasks, blockers and notes, the clock's id, and whatever some
person's code is or extends by a dash. A derived code never gets in a project's way
(`Addressing.AllocatedCodesExtendNoProject`); `backend/apps/accounts/services/create_member.py:71` accepts a
pinned one, and one pinned to a project's code does (`Addressing.PinnedPeopleDisagree`).

Frames on the stream are at least once: publishing is not undone when the claim rolls back.
`BusSafety.FramesAtLeastOnce` accounts for every frame.

## Assumptions

* Transactions are atomic and the unique key and row locks behave as PostgreSQL documents; a row lock is
  waited for by enabling the writing step only while no open claim holds the row.
* The handler registry, the attempt budget and the batch size are fixed for a run, and no processed-event
  row or outbox row is deleted.
* Text is compared by code point, where PostgreSQL would use the database's collation.
* The order of two active bindings without an engagement type is the table's default order, since no
  unique constraint forbids two.
* A roster event is produced by the roster, so that `BusRoster.RosterRunsCarryNoProject` applies; events
  are addressed as `RoutingFilter.WellAddressed` says, which is proved of the producers modelled here and
  assumed of tasks, blockers and notes.
* The input hash and the policy version determine the assessment: the hash has no collisions, and of the
  instant the signals read no more than it covers. While the bus is left to itself no facts change.
* Projects, tasks, blockers and notes carry minted codes, and `slugify` answers in lower case.
* Arguments a caller cannot avoid choosing — a fresh UUID, the clock, a random draw, what
  `collect_project_facts`, `slugify`, `datetime.fromisoformat`, the password validators and the risk
  specifications answer — are parameters.

## Model

| member | source | states |
|---|---|---|
| BusSafety.NoEventIsLost | backend/apps/events/tasks.py:229-247 | over every run in which no dispatcher is lost between commit and hooks, every row is, for every subscriber, unpublished, dead-lettered, claimed, or in a hook, queued or running |
| BusSafety.LostExactlyWhen | backend/apps/events/tasks.py:229-247 | a step makes a safe pair unsafe if and only if it loses a drain worker holding the last hook for it |
| BusSafety.StepLosesNothing | backend/apps/events/tasks.py:68-70 | the whole guarantee survives a step if and only if the step strands no wanted pair |
| BusSafety.LosslessRunLosesNothing | backend/apps/events/tasks.py:57-91 | the guarantee over runs that strand nothing, lost dispatchers included |
| BusSafety.EffectsExactlyOnce | backend/apps/events/tasks.py:196-226 | in every run each (event, handler) has at most one committed effect, and one exactly when its claim is committed |
| BusInvariants.StepKeepsExactlyOnce | backend/apps/events/tasks.py:250-258 | every step keeps: effects equal claims, an open claim is not committed, and two transactions never hold one claim |
| BusInvariants.JobKeepsExactlyOnce | backend/apps/events/models.py:250-255 | the unique key keeps it through insert, commit, rollback and kill |
| BusSafety.DeliveriesAreAimed | backend/apps/events/tasks.py:127-137 | a running delivery always finds its row and its handler, and its attempt is within the budget |
| BusInvariants.StepKeepsAim | backend/apps/events/tasks.py:131-160 | hooks, messages and workers only ever name subscribed pairs of existing rows, within the budget |
| BusInvariants.DispatchReachesSubscribers | backend/apps/events/tasks.py:236-239 | a batch is dispatched to exactly the subscribers of its rows |
| BusInvariants.StepKeepsLocks | backend/apps/events/models.py:48-63 | rows held by open claims are unpublished, and open claims are disjoint |
| BusInvariants.StepKeepsRows | backend/apps/events/models.py:165-221 | no step deletes a row or changes the envelope it carries |
| BusBookkeeping.RowsShowTheirHistory | backend/apps/events/models.py:165-221 | after any run every row shows exactly when it was published and dead-lettered and what its last failure was, as the steps of the run since it was last put back say |
| BusBookkeeping.LastFailureIsShown | backend/apps/events/tasks.py:146-160 | until its next failure or re-queue, whatever happens meanwhile, a row shows the attempt and the error of its last saved failure and the dead letter it led to |
| BusCorrelation.DecisionsCorrelate | backend/apps/events/services/enqueue_event.py:121-121 | in every run the chain of causes of every event leads to one produced in the run, and all of it carries the correlation id that one was given or, failing that, its id |
| BusSafety.DrainsNeverOverlap | backend/apps/events/models.py:48-63 | concurrent batches are disjoint, and a row has been dispatched once per ended unpublished period |
| BusSafety.StepKeepsBalance | backend/apps/events/tasks.py:229-242 | dispatches plus the open period equal the unpublished periods, through every step |
| BusSafety.TrailAndBusAgree | backend/apps/prioritization/handlers.py:131-201 | in every run the engine's records and its events are in bijection, at most one pair per trigger and project, with the trigger's correlation id |
| BusInvariants.CommitKeepsTrail | backend/apps/prioritization/handlers.py:165-201 | a commit extends the bijection by exactly what the handler wrote |
| BusInvariants.UnclaimedUnseen | backend/apps/events/tasks.py:214-226 | a trigger whose claim is not committed has left nothing on the trail or the bus |
| BusSafety.FramesAtLeastOnce | backend/apps/events/handlers.py:31-66 | an applied fan-out has published at least one frame, and exactly one unless a run was rolled back after publishing |
| BusSafety.StepKeepsFrames | backend/apps/events/handlers.py:31-66 | every frame is a committed, an open or a rolled-back run |
| BusDrain.ClaimTakesTheOldest | backend/apps/events/models.py:48-63 | the claim query returns exactly the first rows of the sorted claimable backlog |
| BusDrain.ConcurrentDrainsAreOnePass | backend/apps/events/tasks.py:61-64 | batches of any number of interleaved workers, in claim order, followed by what is left, are the sorted backlog |
| BusDrain.LoneDrainPasses | backend/apps/events/tasks.py:79-86 | a lone drain of size B on n rows makes n / B + 1 passes and claims exactly those rows in order |
| BusDrain.BacklogUnique | backend/apps/events/models.py:62-63 | there is one way to list a pool by (occurred_at, id) |
| BusTermination.CascadeTerminates | backend/apps/prioritization/handlers.py:74-91 | from every reachable state the bus left to itself stops, whatever the interleaving and however often handlers fail |
| BusTermination.StepLowers | backend/apps/events/tasks.py:95-160 | every step the bus takes on its own lowers the lexicographic measure |
| BusTermination.ClassesPersist | backend/apps/prioritization/handlers.py:189-201 | what the engine writes is never something it consumes |
| BusTermination.PublishingPays | backend/apps/events/tasks.py:234-241 | publishing a batch turns the weight of its rows into strictly less weight of hooks |
| BusTermination.DeployedIsAcyclic | backend/apps/prioritization/handlers.py:74-99 | the deployed registry meets the condition the termination proof needs |
| BusCycle.CascadeEndsExactlyWhen | backend/apps/prioritization/handlers.py:12-14 | over every history of outside writes and all stored scores: the bus left to itself stops if and only if the batch size is positive and either the engine does not consume the topic it emits or no project is assessed in two ways at two instants |
| BusCycle.OneTurn | backend/apps/prioritization/services/recompute_for_project.py:110-156 | with such a subscription, two pending events that show one project in two ways are followed by two such events, each announced because the other's score is stored |
| BusCycle.TwoEventsLoop | backend/apps/prioritization/services/recompute_for_project.py:110-156 | two outside writes about one project lead there |
| BusCycle.EchoEndsExactlyWhen | backend/apps/prioritization/handlers.py:74-91 | for the deployed registry with the emitted topic added to the engine's: it stops if and only if the batch size is positive and no project is assessed in two ways |
| BusCycle.DeployedEndsExactlyWhen | backend/apps/prioritization/handlers.py:74-91 | for the deployed registry: it stops if and only if the batch size is positive |
| BusQuiet.AgreedCascadeSettles | backend/apps/prioritization/services/recompute_for_project.py:72-74 | whatever the engine is subscribed to and whatever is stored, the bus left to itself stops from every reachable state whose pending events show each project in one way |
| BusQuiet.LoneEventDiesOut | backend/apps/prioritization/services/recompute_for_project.py:72-74 | one pending event dies out, although the engine consume what it emits |
| BusQuiet.Dwindles | backend/apps/prioritization/services/recompute_for_project.py:110-156 | every step leaves fewer transactions on older facts, fewer events that may be news, or less work |
| BusQuiet.HotShrinks | backend/apps/prioritization/services/recompute_for_project.py:130-156 | announcing a project's score takes its trigger out of the events that may be news, and puts none in |
| BusQuiet.StepKeepsAgreed | backend/apps/prioritization/handlers.py:189-201 | an announcement shows what its trigger showed |
| Scoring.PriorityScores.RecomputeForProject | backend/apps/prioritization/services/recompute_for_project.py:67-156 | what is reported and what is stored, and that the row then says what the facts say |
| Scoring.ChangedExactlyWhen | backend/apps/prioritization/services/recompute_for_project.py:159-170 | a recomputation is news if and only if the stored row does not say so already |
| Scoring.SecondRecomputeIsQuiet | backend/apps/prioritization/services/recompute_for_project.py:72-74 | a second arrival reports no change and writes nothing |
| Scoring.ReportsTheStoredScores | backend/apps/prioritization/services/recompute_for_project.py:110-156 | the previous value reported is the stored one, none exactly when there is no row, and the value reported is the number stored afterwards |
| ScoreTrail.TrailTellsTheScore | backend/apps/prioritization/models.py:142-143 | whatever events the engine is run on and however the facts change, a project's records, read strictly one after the other, lead from nothing to its stored score, as long as no rebuild moves it |
| ScoreTrail.ToldExactlyWhen | backend/apps/prioritization/services/recompute_projects.py:19-24 | a pass leaves the trail telling a project's score if and only if it is no rebuild that moves it |
| ScoreTrail.RecordsChain | backend/apps/prioritization/handlers.py:170-188 | each record starts from the number the one before it ended at, and from its text if and only if the score lies strictly between the bounds |
| ScoreTrail.BoundsDoNotJoin | backend/apps/prioritization/domain/scoring.py:91-91 | two notes on one project leave a record that ends at "0" and a next one that starts from "0.00" |
| ScoreTrail.RebuildIsUntold | backend/apps/prioritization/services/recompute_projects.py:110-113 | a rebuild leaves a score that no record tells |
| Decimals.StoredShownExactlyWhen | backend/apps/prioritization/domain/scoring.py:91-91 | a computed score prints as the stored one if and only if it lies strictly between the bounds |
| BusRecovery.RequeueRecovers | backend/apps/events/admin.py:120-147 | from any reachable state: after a re-queue a healthy run to rest exists; at the end of every one all subscribers have applied the row exactly once if all can, and it is dead-lettered again if and only if one cannot or an older delivery's last failure was still unrecorded |
| BusRecovery.LockedRowIsReleased | backend/apps/events/tasks.py:229-242 | a re-queue held up by a drain's row lock waits for one step of that drain |
| BusRecovery.HealthyKeepsDoomed | backend/apps/events/tasks.py:146-158 | a row whose dead letter is written or about to be written stays so until an operator acts |
| BusRecovery.ClaimedNeverReapplied | backend/apps/events/models.py:212-215 | a handler that has applied an event adds no further effect in any continuation |
| BusRecovery.EverythingSettles | backend/apps/events/tasks.py:7-11 | after any history without a lost dispatcher, one sweep and a healthy run to rest leave every pair applied once or its row dead-lettered |
| BusRecovery.ProgressIsPossible | backend/apps/events/tasks.py:57-160 | no reachable state is stuck: while anything is outstanding some healthy step is enabled |
| BusRecovery.CanSettle | backend/apps/events/tasks.py:57-160 | a healthy run to rest exists from every such state |
| BusRecovery.StepKeepsAnnounced | backend/apps/events/tasks.py:80-86 | whatever can be claimed has a drain message, a kick, or a full batch coming |
| BusRecovery.HealthyKeepsComing | backend/apps/events/tasks.py:131-162 | a delivery that can succeed stays on its way until it has |
| BusRecovery.DeployedApplies | backend/apps/portfolio/handlers.py:46-71 | which rows the three deployed handlers can all apply: no roster event, and otherwise exactly those that can be routed |
| BusRecovery.RosterRowsAreDeadLetteredAgain | backend/apps/portfolio/handlers.py:46-71 | re-queueing a roster event ends dead-lettered in every healthy run |
| BusFailures.KilledDispatcherLosesTheEvent | backend/apps/events/tasks.py:17-20 | a run of four steps after which a published row has a subscriber nobody will tell, and nothing concerns the row any more |
| BusFailures.LostForever | backend/apps/events/admin.py:131-134 | no continuation applies an abandoned pair |
| BusRescue.RecoverableExactlyWhen | backend/apps/events/tasks.py:17-20 | from any reachable state some continuation applies a delivery if and only if it is applied already, or its handler can apply it and its row is unpublished, dead-lettered, selected, in a hook, queued or being worked on |
| BusRescue.QueuedIsRecoverable | backend/apps/events/tasks.py:146-160 | a queued delivery can be failed until its row is dead-lettered, and recovered from there |
| BusRescue.UnpublishedIsRecoverable | backend/apps/events/tasks.py:57-91 | a sweep and a healthy run to rest apply whatever is unpublished and can be applied |
| BusUndone.RequeueIsUndone | backend/apps/events/models.py:209-221 | a run after which a dead-lettered row can be applied by every subscriber, and a healthy run to rest after its re-queue leaves it applied by all and dead-lettered |
| BusFailures.StepKeepsSelections | backend/apps/events/admin.py:120-135 | selections hold dead-lettered rows, one operator's each, through every step if and only if no selection overlaps another |
| BusFailures.StepKeepsSelectedDead | backend/apps/events/admin.py:120-135 | the rows selected are dead-lettered through every step if and only if it is not the re-queue of a row selected twice |
| BusFailures.SecondRequeueTakesAHealthyRow | backend/apps/events/admin.py:120-135 | of two operators with one selection the second can re-queue a row that is no longer dead-lettered |
| BusFailures.ZeroBatchLoops | backend/apps/events/tasks.py:79-86 | a pass of batch size zero leads back to the state it started from |
| BusFailures.ZeroBatchNeverStops | backend/apps/events/tasks.py:79-86 | with a batch size of zero one sweep of an empty table starts an endless run |
| BusFailures.RosterEventsNeverReachTheSnapshot | backend/apps/portfolio/handlers.py:46-71 | in no run has the snapshot builder applied a roster event |
| BusRoster.RosterRunsCarryNoProject | backend/apps/accounts/domain/events.py:30-64 | in every run whose roster events the roster produces, every roster row is about a person and names no project |
| BusRoster.RosterEventsAreNeverSnapshot | backend/apps/portfolio/handlers.py:46-71 | so in every such run no roster event is ever applied by the snapshot builder |
| BusFailures.ClaimsWereApplicable | backend/apps/events/tasks.py:214-226 | every committed claim is on an envelope its handler can apply |
| Catalog.EmittedTopicIsNotConsumed | backend/apps/prioritization/handlers.py:74-91 | the emitted topic is outside the engine's subscriptions |
| Transport.Bus.EnqueueEvent | backend/apps/events/services/enqueue_event.py:53-169 | an unknown topic and an envelope off its schema are refused in this order and change nothing; otherwise a row is appended whose envelope is the draft under the new id, correlated as the caller says or with itself, with blank bookkeeping, and a drain is kicked unless the broker is down; the tables stay a reachable state |
| Transport.InvalidExactlyWhen | backend/apps/events/domain/envelope.py:114-160 | an event on a known topic is off its schema if and only if its actor, entity kind or entity id is empty or too long or its version is zero |
| Transport.Bus.ClaimBatch | backend/apps/events/models.py:48-63 | the selected rows are the claim, and the first of the sorted backlog |
| Transport.Bus.ClaimAndDispatch | backend/apps/events/tasks.py:229-247 | one pass publishes the oldest rows and appends one delivery per row and subscriber, in order |
| Transport.Bus.DrainOutbox | backend/apps/events/tasks.py:57-91 | a pass takes its batch off the backlog, and queues another exactly when the batch was full |
| Transport.Bus.DrainBacklog | backend/apps/events/tasks.py:57-91 | a drain left to itself queues the deliveries of the whole sorted backlog, as one pass would, in n / limit + 1 passes |
| Transport.Bus.HandleEvent | backend/apps/events/tasks.py:94-162 | which of the four outcomes occurs, wherever the attempt fails, and the whole new state of each; after a failure the row shows the attempt and the error as far as the column holds it, a dead-letter instant exactly when the budget is spent, and everything else unchanged; the missing and unregistered outcomes do not occur |
| Transport.Bus.AttemptDelivery | backend/apps/events/tasks.py:139-160 | claim and effect of one attempt on a delivery already taken, or what its failure leaves on the row |
| Transport.Bus.CommitEffect | backend/apps/events/tasks.py:214-226 | claim, trail and outbox rows become durable together |
| Transport.DispatchJoins | backend/apps/events/tasks.py:236-239 | dispatching two batches is dispatching them as one |
| Transport.RowIsDispatchedInNameOrder | backend/apps/events/registry.py:123-142 | a row is dispatched to its handlers in name order, to none twice |
| Transport.MessagesAreAimed | backend/apps/events/tasks.py:127-135 | a queued message's row exists and its handler is registered |
| Retry.BackoffSeconds | backend/apps/events/tasks.py:261-267 | the wait lies between the doubled delay and a quarter more |
| Retry.Deliver | backend/apps/events/tasks.py:131-160 | a delivery runs up to its first success, at most max(1, M) times, and waits between 2^(k-1) - 1 and 1.25 times that over k runs |
| Outbox.OutboxEvent.MarkPublished | backend/apps/events/models.py:165-178 | only the publication column changes |
| Outbox.OutboxEvent.RecordFailure | backend/apps/events/models.py:180-191 | the row shows the attempt and the first 500 characters of the error; nothing else changes |
| Outbox.OutboxEvent.MarkDeadLettered | backend/apps/events/models.py:193-207 | so it does, and the dead-letter instant is set |
| Outbox.OutboxEvent.Requeue | backend/apps/events/models.py:209-221 | the bookkeeping is that of a new row |
| Outbox.RequeueDeadLettered | backend/apps/events/admin.py:120-147 | exactly the dead-lettered rows of the selection become rows as if new, and the count is theirs |
| Registry.HandlerRegistry.Register | backend/apps/events/registry.py:74-120 | which registrations are refused, in which order; an accepted one is found under its name and no other name changes |
| Registry.DispatchIgnoresImportOrder | backend/apps/events/registry.py:123-142 | the handlers of a topic come in the same order whatever the registration order |
| Registry.DispatchIsOrderedAndDistinct | backend/apps/events/registry.py:123-142 | they are in name order and none is named twice |
| Registry.DispatchedExactlyTheSubscribers | backend/apps/events/registry.py:123-142 | they are exactly the registrations subscribed to the topic |
| Engine.RecalculatePriority | backend/apps/prioritization/handlers.py:99-201 | it fails exactly when the event cannot be routed, a recomputation raises or its news is off the payload's schema, and otherwise writes one matching record and event per project that moved, in order |
| Engine.RecordAndEventTellOneStory | backend/apps/prioritization/handlers.py:204-240 | the record's delta is the difference of the announced values, and the signal it names is a line of the announced breakdown that none outweighs |
| Engine.RestOfTheStory | backend/apps/prioritization/handlers.py:204-233 | the record names its trigger and the event the origin, the modifiers and the flags |
| Engine.LastFactorCounts | backend/apps/prioritization/domain/events.py:123-123 | of two modifiers with one code the payload keeps the later, and no code is made up |
| Engine.PresentableExactlyWhen | backend/apps/prioritization/domain/events.py:39-76 | a recomputation can be announced if and only if the schema accepts the payload it makes |
| Engine.EachIsAnnounced | backend/apps/prioritization/handlers.py:165-201 | every piece of news has its record and its event, at the same place, about the same project and instant, with the trigger's correlation id; the record reads from the stored score, or from nothing where there was none, to the announced one; the trail refuses none |
| Engine.DominantAt | backend/apps/prioritization/handlers.py:236-240 | the dominant signal contributes most, and is the first to do so |
| Roster.RosterTables.UpdateMember | backend/apps/accounts/services/update_member.py:44-108 | refused edits change nothing; an accepted one appends exactly the difference between before and after, and the trail still replays to the tables |
| Roster.RosterTables.ApplyAttributes | backend/apps/accounts/services/update_member.py:111-155 | the edited person and the changes, or the missing role |
| Roster.RosterTables.RecordAttributeChanges | backend/apps/accounts/services/update_member.py:180-222 | one record per moved attribute and one event for the set |
| Roster.RosterTables.RecordActivationChange | backend/apps/accounts/services/update_member.py:225-257 | one record naming the direction and one event |
| Roster.RosterTables.CreateMember | backend/apps/accounts/services/create_member.py:21-117 | exactly when a person is registered, under which code, and that the trail starts their story |
| Roster.RosterTables.SetMemberPassword | backend/apps/accounts/services/set_member_password.py:18-75 | a reset by anybody is recorded, announces nothing and makes the account reachable; a refused one changes nothing |
| Roster.RosterTables.CreateRole | backend/apps/catalog/services/write_role.py:32-81 | a taken code changes nothing; a new role is active, last in order and on the trail |
| Roster.RosterTables.UpdateRole | backend/apps/catalog/services/write_role.py:84-154 | the edited role and exactly its difference on the trail |
| Roster.MemberDiffReplays | backend/apps/accounts/services/update_member.py:128-222 | the records of an edit take a strict reader from the person before to the person after |
| Roster.MemberEditReplays | backend/apps/accounts/services/update_member.py:44-108 | an edit keeps the trail's story of everybody equal to the tables |
| Roster.MemberCreationReplays | backend/apps/accounts/services/create_member.py:69-101 | a registration does |
| Roster.PasswordResetReplays | backend/apps/accounts/services/set_member_password.py:58-73 | a reset keeps the story, who can sign in included |
| Roster.RoleEditReplays | backend/apps/catalog/services/write_role.py:111-154 | an edit of a role does |
| Roster.RoleDiffReplays | backend/apps/catalog/services/write_role.py:114-148 | a role's records replay its label and activity, and there are none exactly when neither moved |
| Roster.NoOpWritesNothing | backend/apps/accounts/services/update_member.py:57-59 | an edit writes nothing if and only if it changes nothing |
| Roster.AnnouncementsTell | backend/apps/accounts/services/update_member.py:180-257 | which events an edit sends, and that each shows the person as they now stand |
| Roster.ChangedNamesTheMoved | backend/apps/accounts/services/update_member.py:180-222 | the event names exactly the attributes that moved |
| Roster.CreationTells | backend/apps/accounts/services/create_member.py:102-115 | what a registration announces |
| Roster.RecordsAreSigned | backend/apps/accounts/services/update_member.py:180-257 | every record of an edit carries its actor, instant and decision, and names the field that moved |
| Roster.ActivationIsTold | backend/apps/accounts/services/update_member.py:225-246 | a retirement reads from true to false, a restoration the other way round |
| Roster.OtherRecordsAreSigned | backend/apps/accounts/services/set_member_password.py:58-73 | so are the other records of the roster; a reset says whether it was the person's own and carries no value |
| Roster.EditsDoWhatIsAsked | backend/apps/accounts/services/update_member.py:111-178 | a field not sent or sent as null is left alone, but for the role, which null takes away |
| Roster.RoleEditsDoWhatIsAsked | backend/apps/catalog/services/write_role.py:114-140 | so for a role, whose place in the order no edit moves |
| Roster.EditRefusedExactlyWhen | backend/apps/accounts/services/update_member.py:86-93 | exactly when an edit is refused, and by which rule first |
| Roster.AnnouncementsAreRosterEvents | backend/apps/accounts/domain/events.py:30-64 | every roster event is about a person and carries no project code |
| Activity.ActivityTrail.Write | backend/apps/activity/services/record.py:18-73 | what the trail refuses and why, and that only accepted facts are appended |
| Activity.RefusedInOrder | backend/apps/activity/services/record.py:18-73 | exactly which record is refused as what: the vocabularies in order, then a manual record without a reason that says something |
| Placement.Portfolio.CreateProject | backend/apps/portfolio/services/create_project.py:30-151 | exactly when a project is created and which rule refuses it first; that it stands on an active entry node of the graph its engagement type resolves to, under a new code; its record and its event |
| Placement.CreationRefusal | backend/apps/portfolio/services/create_project.py:79-105 | the first rule to fail, and none exactly when every rule is met |
| Placement.RulesAreCheckedInOrder | backend/apps/portfolio/services/create_project.py:79-105 | which rule refuses a creation, each only what the ones before it let through |
| Placement.ReferencesAreCheckedInOrder | backend/apps/portfolio/services/create_project.py:94-105 | which unknown reference is reported |
| Placement.StartsExactlyWhen | backend/apps/workflow/models.py:323-341 | a start exists if and only if a graph is inherited and has an active entry node, and it is that node |
| Placement.CreationIsTold | backend/apps/portfolio/services/create_project.py:112-127 | the record of a creation names the entry state and what was asked for |
| Placement.CreationIsAnnounced | backend/apps/portfolio/services/create_project.py:128-147 | the event carries the columns with the names of client and owner looked up, and null exactly for what is missing |
| Placement.Portfolio.TransitionProject | backend/apps/portfolio/services/transition_project.py:24-133 | the move the graph allows, with the record and the event of its edge, or nothing; the placement invariant and the trail's account of it are kept |
| Placement.Portfolio.AssignProjectWorkflow | backend/apps/portfolio/services/assign_project_workflow.py:21-147 | the reassignment the graphs allow, with its record and its event, or nothing; a no-op writes nothing |
| Placement.Portfolio.Reshape | backend/apps/workflow/models.py:344-357 | authoring that retires but never deletes states keeps every placement and the trail's account |
| Placement.AssignmentKeepsTheState | backend/apps/workflow/services/reassignment.py:24-31 | an assignment never changes the state code and lands on an active state of the graph it asks for: the one named, or the one the engagement type inherits |
| Placement.AssignedExactlyWhen | backend/apps/workflow/services/reassignment.py:66-121 | an assignment goes through if and only if it changes nothing or the graph it asks for is one of projects, in service or already stood in, with an active state of the current code |
| Placement.AssignmentIsTold | backend/apps/portfolio/services/assign_project_workflow.py:102-120 | the record of an assignment reads from the graph the project stood in to the one it stands in |
| Placement.AssignmentIsExplained | backend/apps/portfolio/services/assign_project_workflow.py:110-117 | and names the state that stayed and whether a graph was named |
| Placement.AssignmentIsAnnounced | backend/apps/portfolio/services/assign_project_workflow.py:125-145 | the event repeats those graphs as the one change |
| Placement.MovesFollowEdges | backend/apps/portfolio/services/transition_project.py:74-84 | a move follows an active edge of the current graph and arrives at the code asked for |
| Placement.MoveIsTold | backend/apps/portfolio/services/transition_project.py:86-104 | the record of a move names the states the project stood and stands on, its edge, and whether it was justified |
| Placement.MoveIsAnnounced | backend/apps/portfolio/services/transition_project.py:105-121 | the event does, with both categories |
| Placement.ReshapingKeepsPlaces | backend/apps/portfolio/models.py:490-519 | edits of the graphs keep every project on a state of its own graph |
| Workflows.AtMostOneEdge | backend/apps/workflow/models.py:450-474 | the target selection matches at most one edge |
| Workflows.MovesAlongAnEdge | backend/apps/workflow/services/transition.py:53-143 | a move is accepted if and only if an active edge exists and its reason, fields and guard are satisfied |
| Workflows.DemandsInOrder | backend/apps/workflow/services/transition.py:53-143 | what the edge still demands is said in order: the reason, the first empty field, the guard |
| Workflows.RefusalListsTheMoves | backend/apps/workflow/models.py:546-553 | a refused move names exactly the codes an active edge leads to, and the one asked for is none of them |
| Workflows.InheritedGraphIsUsable | backend/apps/workflow/models.py:120-184 | a graph reached by inheritance is in service and of the right kind |
| Workflows.UnconfiguredExactlyWhen | backend/apps/workflow/models.py:160-184 | resolution fails exactly when no usable binding and no active default exists |
| Workflows.MostSpecificWins | backend/apps/workflow/models.py:160-173 | a record's own graph wins, and then the first usable binding for its engagement type |
| Workflows.GeneralWinsNext | backend/apps/workflow/models.py:174-184 | without one, the first usable binding for every type; without that, the active default graph |
| Workflows.EntryState | backend/apps/workflow/models.py:323-341 | an active entry node of the graph asked for, whenever there is one |
| Workflows.LandingIsTheEquivalentNode | backend/apps/workflow/services/reassignment.py:92-121 | where a record lands, exactly when it does, and that a refusal lists what the target offers |
| Workflows.ReassignmentRefusedInOrder | backend/apps/workflow/services/reassignment.py:92-103 | a graph of the wrong kind is refused before one out of service |
| EventStream.LinesJoin | backend/config/sse.py:149-169 | a stream cut after a line feed is read piece by piece |
| EventStream.FeedingKeepsTame | backend/config/sse.py:221-225 | no stream makes a client hold a carriage return in data or a line break or NUL in an id |
| EventStream.DataLinesJoin | backend/config/sse.py:223-225 | data in several lines is read as one text, and an event without a type as a message |
| EventStream.NameAlone | backend/config/sse.py:160-169 | a field without a colon has the empty value, and a line that starts with one, as heartbeats do, is a comment |
| Sse.StreamReadsBack | backend/config/sse.py:149-225 | on any concatenation of frames a standard client between two events sees exactly the forwarded events and the resets, in order, and is left with the last forwarded id, or the id its buffer held when none was |
| Sse.FrameReadsBack | backend/config/sse.py:183-225 | one frame, read by a client in any state between two events |
| Sse.IdleFramesKeepTheIdExactlyWhen | backend/config/sse.py:17-20 | frames that forward nothing leave the client's last event id alone if and only if its id buffer already holds it |
| Sse.SecondDropGoesUnannounced | backend/config/sse.py:154-159 | a browser that came back and was forwarded nothing loses its id, so that its next return is answered without a reset |
| Sse.NextHeaderExactlyWhen | backend/config/sse.py:108 | a browser comes back with an id if and only if something was forwarded to it |
| Sse.ReadsBackExactlyWhen | backend/config/sse.py:221-225 | a frame is read back as its event if and only if its body has no carriage return and its id no line break and no NUL |
| Sse.BrowserSeesTheForwardedEvents | backend/config/sse.py:136-225 | end to end, for any client, topics, filter and messages, what the browser dispatches is the reset it is owed and then exactly, in order, the well-formed messages with a requested topic that concern the project followed, each with its topic, its id and its text less line feeds, and the id it ends with is that of the last of them |
| Sse.Frames | backend/config/sse.py:136-180 | the generator yields the opening and one answer per message: the frames it forwards are exactly the messages that pass, in order, and every silence has its heartbeat |
| Sse.FrameFor | backend/config/sse.py:191-225 | a message is forwarded if and only if it is an envelope with a requested topic that concerns the project followed |
| Sse.RequestedTopics | backend/config/sse.py:122-133 | exactly the allowlisted topics asked for, or the whole allowlist when none was |
| RoutingFilter.FilterAgreesWithRouting | backend/config/sse.py:228-247 | for a minted code an event passes the filter if and only if the bus routes it to that project, except, exactly, where it is about a person whose code extends that project's |
| RoutingFilter.BrowserFollowsItsProject | backend/config/sse.py:136-247 | end to end: a browser that follows a minted project code dispatches exactly, in order, the events with a requested topic that the bus routes to that project, on any channel of well-addressed events none of which is about a person under that code |
| RoutingFilter.AgreesExactlyWhen | backend/config/sse.py:228-247 | for any text but the empty one and any roster, the filter lets through what the bus routes to that project, over all events, if and only if the text is no bare prefix, no task's, blocker's or note's code, not the clock's id, and no person's code extends it |
| Addressing.PortfolioEventsAreWellAddressed | backend/apps/portfolio/services/create_project.py:123-149 | the portfolio's events are addressed by the project's code and carry no other |
| Addressing.EngineEventsAreWellAddressed | backend/apps/prioritization/handlers.py:189-201 | so are the engine's |
| Addressing.RosterEventsAreWellAddressed | backend/apps/accounts/domain/events.py:30-64 | a roster event concerns no project, whatever the person's code |
| Addressing.AllocatedCodesExtendNoProject | backend/apps/accounts/models.py:184-198 | a code derived from a slug extends no project's code |
| Addressing.AllocatedPeopleAgree | backend/config/sse.py:228-247 | so filter and routing agree on every event about such a person |
| Addressing.PinnedPeopleDisagree | backend/apps/accounts/services/create_member.py:71 | a code pinned to a project's, or extending it, breaks the agreement for that project |
| RoutingFilter.TaskExtendsItsProject | backend/apps/work/models.py:283-319 | a task code extends itself, its own project's code and the bare prefix, and no other text |
| RoutingFilter.BarePrefixLeaks | backend/config/sse.py:240-244 | the bare prefixes of projects, blockers and notes do not agree with the routing on every event |
| RosterOrder.OrderRoster | backend/apps/portfolio/services/read_team_load.py:91-121 | an unknown field is refused; otherwise the two in-place sorts leave the one lexicographic order: a permutation of the rows in the order of the column the field names, in its direction, with ties by label |
| RosterOrder.TwoSortsAreOne | backend/apps/portfolio/services/read_team_load.py:91-95 | sorting by label and then by the key, in either direction, is one stable sort by key and label |
| RosterOrder.RosterIsOrdered | backend/apps/portfolio/services/read_team_load.py:91-95 | the rows are a permutation in the key's direction, with ties by label always ascending |
| RosterOrder.NamesSortByTheirColumns | backend/apps/portfolio/services/read_team_load.py:98-121 | each field name compares rows by the column it names |
| Lexicographic.TwoPassesAreOne | backend/apps/portfolio/services/read_team_load.py:91-95 | two stable passes are one lexicographic stable sort, for any two orders |
| Lexicographic.ReverseIsDescending | backend/apps/portfolio/services/read_team_load.py:94-94 | sorting with reverse is a stable descending sort |
| Paging.AnswersAreUnique | backend/apps/shared/ordering.py:34-57 | with the code as tiebreaker a query has one possible answer |
| Paging.AnswersAreInFieldOrder | backend/apps/shared/ordering.py:34-57 | rows come in the order of the column the field names, projects without a date as the latest, in its direction, with ties by code |
| Paging.SelectedExactlyWhen | backend/apps/portfolio/services/read_queue.py:58-76 | the facets select the rows with the health asked for and every flag asked for |
| Paging.SignedNamesAreAccepted | backend/apps/shared/ordering.py:34-57 | every allowlisted field is accepted with and without the sign, which decides the direction |
| Paging.OthersAreRefused | backend/apps/shared/ordering.py:34-57 | nothing else is accepted |
| Paging.PagesConcatenate | backend/apps/shared/pagination.py:51-65 | consecutive pages concatenate to the list, nothing repeated or dropped |
| Paging.PagesAreAdjacent | backend/apps/shared/pagination.py:51-65 | the next window starts where this one ends, for any requested size |
| Paging.FastPathAgrees | backend/apps/portfolio/services/read_queue.py:58-76 | windowing before evaluating gives the page and the count of evaluating, filtering and windowing |
| Paging.PagingSeesEverythingOnce | backend/apps/portfolio/models.py:225-279 | a client paging with one query per page sees every selected project exactly once, in order |
| Codes.NextCode | backend/apps/portfolio/models.py:111-134 | the minted code is above every code present, and new |
| Codes.CodesAreNeverReused | backend/apps/portfolio/models.py:119-120 | without deletes every create raises the maximum and no code is issued twice |
| Codes.ReusedExactlyWhen | backend/apps/portfolio/models.py:114-117 | the next code was issued before if and only if the highest number ever issued is no longer present |
| Codes.DeletingTheNewestReusesItsCode | backend/apps/work/models.py:292-293 | after any run of creates and archives, deleting the newest row brings its code back |
| Codes.MintedReadsBack | backend/apps/portfolio/models.py:130-134 | the zero-padded number is read back from a code |
| Codes.TaskCodesDecompose | backend/apps/work/models.py:283-319 | a task code determines its project and its number |
| Codes.NextTaskCodeIsNewEverywhere | backend/apps/work/models.py:311-319 | reading one project's codes suffices for a code new in the whole table |
| MemberCodes.AllocateCode | backend/apps/accounts/models.py:184-198 | the code is in no row, is the base or the base with the lowest free suffix, and the suffix is at most one more than the codes sharing the base |
| MemberCodes.NameBecomesBase | backend/apps/accounts/models.py:184-189 | a name of several tokens gives the first and the last with a dot between them, whatever stands in the middle |
| MemberCodes.StemOfName | backend/apps/accounts/models.py:186-186 | the dashes around a name go, those inside become dots, and what is too long is cut |
| MemberCodes.TokenIsItsBase | backend/apps/accounts/models.py:184-189 | a name of one token is its own base |
| MemberCodes.StemOfNothing | backend/apps/accounts/models.py:186-186 | a name that slugifies to nothing gets the fallback |
| OwnerLoad.LoadsAreTheSimpleCounts | backend/apps/portfolio/repositories.py:48-136 | each known person's entry equals the simple counts over unremoved tasks, none above open, for exactly the known codes |
| OwnerLoad.ListsHoldWhatTheyName | backend/apps/work/models.py:208-243 | which tasks the counted lists hold, by their columns: a task due today is not overdue |
| OwnerLoad.GroupedCountsAgree | backend/apps/portfolio/repositories.py:99-136 | the grouped query counts what chaining the definitions counts |
| OwnerLoad.GroupedProjectsAgree | backend/apps/portfolio/repositories.py:139-151 | and the projects grouped by owner are the unarchived ones each person owns |
| OwnerLoad.OpenTasksAreConserved | backend/apps/work/models.py:208-243 | summed over people, the open counts are the open tasks assigned to them |

## Left out

* Celery, Redis, PostgreSQL and Django themselves, and a broker that refuses a retry: a retry is queued
  or the worker is killed first.
* Deletion of processed-event rows by a retention sweep, which would break exactly-once under re-queue.
* The stored error's type name, the sentences returned for the result list, logging and notifications.
* The signals, the policy weights and the risk specifications: what the facts of a project are assessed as is a parameter.
* What the snapshot builder writes: it overwrites one row and emits nothing, so to the bus it is a handler
  with an empty output.
- Transport.Bus.HandleEvent: one worker at a time; interleavings, kills and redeliveries are the step machine's.
- Transport.Bus.EnqueueEvent: an instant is always aware and a payload always JSON, so the two checks of that cannot fail.
- ScoreTrail.TrailTellsTheScore: passes one after another; no lock keeps two transactions that rescore one project at once from both starting from the score stored before either.
- Engine.RecalculatePriority: decimals become JSON numbers without rounding to floating point.
- Placement.Portfolio.CreateProject: the columns that place nothing, such as the summary, are not stored, and a day is a number.
- MemberCodes.AllocateCode: claims no bound on the length, because a suffix can push the code past the column's width.
- Sse.BrowserSeesTheForwardedEvents: envelopes are already parsed, and the parameter string of topics is already split.
- Roster.RosterTables.UpdateMember: does not model the length limits the command's schema checks before the service is called.
- OwnerLoad.LoadsAreTheSimpleCounts: utilization and its rounding are not modelled.
- Paging.AnswersAreUnique: holds while the table stands still between the reads.
* Unicode digits in `str.isdigit`, Unicode blanks in `str.strip`, and how instants are printed.
* How a sequence draws blocker and note codes; the dependency graph of tasks; the search and
  role facets; authentication, routers, schemas, admin screens other than the re-queue action, settings,
  migrations and the frontend.
