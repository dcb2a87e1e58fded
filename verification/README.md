# RT-FADS: a verified model of the event protocol, the alert lifecycle and the detection rules

RT-FADS moves a submitted transaction through a transactional outbox, a relay to Redis Streams,
idempotent consumers with an inbox table, and an alert lifecycle with timed escalation and
compensation.  This project models those parts in Dafny and proves what they promise over whole
runs: with several replicas of every worker, crashes between any two steps, duplicate stream
entries, lost answers, reclaimed messages, stale selections and stale reads.

`dafny verify dfyconfig.toml` checks everything, with Dafny's default limits.

## How the model is built

| file | content |
|---|---|
| `Domain.dfy`, `Ledger.dfy` | rows, events, settings; one function for each database transaction that a service commits |
| `LedgerInvariants.dfy` | what each of those transactions keeps: outbox = facts, audit trail = alert, PROCESSED = inbox row |
| `Protocol.dfy`, `ProtocolInvariants.dfy` | the running system as a step machine, and the invariant of every reachable state |
| `Delivery.dfy` | exactly-once effect, no loss, rest |
| `Progress.dfy`, `Chances.dfy`, `Drain.dfy` | what can still happen from any reachable state, on any evidence: an event takes effect exactly if it has a chance, and the whole system can run down to rest |
| `RelaySafety.dfy`, `RelayFairness.dfy` | the relay's safety; how long an event can wait |
| `Counters.dfy`, `LostUpdates.dfy`, `Compensation.dfy` | profile counters and score against the tables; runs that lose an update; the score after compensation |
| `AlertHistory.dfy`, `Escalation.dfy`, `AlertActions.dfy` | alert state machine under races; the escalation tick and how long an alert can wait for it; resolution |
| `TransactionLifecycle.dfy`, `Ingestion.dfy` | a transaction's life and its idempotency key; submission |
| `Publisher.dfy`, `Consumers.dfy`, `Storage.dfy` | the relay batch and the two consumers as imperative methods over the shared stores |
| `Rules.dfy`, `Scoring.dfy`, `RuleCache.dfy` | rules engine, fixed-point scoring, TTL cache under interleaved callers |
| `Decisions.dfy` | from the evidence to severity and score of the alert, in plain arithmetic |
| `Origins.dfy` | which step of a run each event, transaction and stamp comes from |
| `Autoclaim.dfy` | the XAUTOCLAIM sweep, and the consumer that claims one page each period |
| `Collections.dfy` | stock facts about sequences, sets and maps |

A step of `Protocol.Next` is one thing that a service, PostgreSQL or Redis does on its own: a
commit, an XADD, a delivery, a crash.  Publishers, workers, schedulers and clients keep the local
state on which their next step relies, however stale it has become.  A worker stands for one message
in the hands of a consumer: it comes with the first delivery, which counts as one, or with a
reclaim, which counts as two, and goes with the acknowledgement, a failed attempt or a crash.  The
primary key of the inbox, the unique index on the idempotency key and `WHERE status = …` are checked
at the commit only.  The services themselves are methods over `Storage.Database` and
`Storage.Redis`.  Where a service decides on earlier reads than the tables its commit meets, the
tables of those reads are a parameter (`seen`, `later`, `polled`).  Each service is proved to commit
exactly a function of `Ledger`, and `Publisher.BatchIsRun`, `Consumers.TransactionMessageIsRun`,
`Consumers.CompensationMessageIsRun`, `Escalation.TierIsRun`, `Ingestion.SubmitIsRun` and
`AlertActions.ResolvedIffStep` show that what a method does is a run of the step machine, so that
everything proved about runs is about the methods too.  `RuleCache` has a machine of its own.

Contracts that stand for the environment: atomic commits with primary-key and unique checks, READ
COMMITTED reads, an ORM update that writes the columns whose value has changed and leaves the others
alone, `SELECT … FOR UPDATE SKIP LOCKED`, conditional `UPDATE … RETURNING`, XADD, XREADGROUP, XACK
and XAUTOCLAIM.  Identifiers that the code draws as UUIDs are parameters assumed unused.  Instants
are integers.  Message ids count the entries of all streams together.  Consumer groups exist before
the first XADD, because the code creates them at `$` and entries added earlier would never be
delivered.

## Where the code differs from what one would expect

- A compensation does not always lower the risk score, although
  `services/processor/services/compensation_service.py:31` says downwards: detection never writes
  the score, so the first compensation can raise it from 0 to 1.  `Compensation.LowersIff` is the
  exact condition, `Compensation.FirstCompensationRaises` an input.
- The profile is read and written in separate statements, so counters lose updates.  They are exact
  precisely when no commit wrote from a stale read (`Counters.TotalExact`,
  `Counters.FalsePositivesExact`); `LostUpdates.LostAlert` and `LostUpdates.LostCompensation` are
  runs from the clean start that lose one.
- An idempotency key does not protect overlapping submissions
  (`TransactionLifecycle.OverlappingSubmissions`).  It names one transaction at most precisely when
  no insert of the key falls between another submission's lookup and its insert
  (`TransactionLifecycle.KeyUniqueIffNotOvertaken`), so always when nobody looks a key up while
  another submission of it is under way (`TransactionLifecycle.SerializedHeldOnce`).
- Consumers count deliveries as the constants 1 and 2.  With MAX_CONSUMER_DELIVERIES of at least two
  no readable message is ever buried; with one, the first reclaim buries it
  (`Delivery.ReadableNeverBuried`, `Delivery.OneDeliveryBuriesReadable`), so that a consumer that
  crashes right after a delivery takes the event's last chance away
  (`Chances.CrashTakesLastChance`).  `Chances.TakesEffectIffChance` is the exact condition for any
  limit.
- `params.get(a) or params.get(b) or params.get(c)` takes a zero for missing.  Under any key but the
  last of its parameter it changes nothing (`Rules.ZeroIsMissing`); it is the bound precisely under
  the last key, when no other key has a truthy value (`Rules.ZeroOnlyLast`; `Rules.ZeroThreshold` is
  an input).  The value written first is the one that counts precisely when it is truthy, or nothing
  truthy and the same value again is behind it (`Rules.FirstWrittenIff`).
- The score is written by compensation alone: it is zero until the first one, and then, without stale
  reads, the net score as it was at the last one, whatever alerts have been raised since
  (`Counters.ScoreZeroBefore`, `Counters.ScoreExact`).
- A resolution whose alert is raised between its update and its second query is refused as an
  invalid transition from an open status (`AlertActions.OpenRefusedIffRaisedBetween`).
- A resolution's audit row says `UNRESOLVED` before, so histories are replayed from the `after`
  side.
- Without a slack delay an alert moves through both tiers in one tick
  (`Escalation.SameTickIffNoDelay`).
- A sweep stops at the first empty page, and a stretch of fresh entries as long as one scan hides
  every idle entry behind it (`Autoclaim.CompleteIff`, `Autoclaim.GapHides`).  A message that raises
  ends it too.  The transaction consumer, which claims one page each period and carries its cursor
  on, has neither defect (`Autoclaim.ReachedWithin`).

## Model

| member | source | states |
|---|---|---|
| `Delivery.ExactlyOnce` | services/processor/consumers/transaction_consumer.py:234-253 | over every run, the effect of an event is committed for a group exactly once if its inbox row is there and never otherwise |
| `Delivery.InboxStep` | shared/models/processed_event.py:17-18 | an inbox row appears together with the effect it stands for and in no other way, and not twice |
| `Delivery.NoLoss` | services/outbox_publisher/publisher.py:142-223 | every outbox event is waiting, in its stream, or dead-lettered with one row; every stream entry is undelivered, pending, or handled |
| `Delivery.AtRestAllDone` | services/processor/consumers/compensation_consumer.py:193-245 | at rest without dead letters every event has taken effect exactly once in every group that reads its stream |
| `Delivery.AtRestReadableDone` | services/processor/consumers/transaction_consumer.py:179-270 | at rest, given a limit of two deliveries or more, so has every event the publisher has not given up on, whatever garbage was dead-lettered |
| `Delivery.AtRestAllProcessed` | services/processor/services/detection_pipeline.py:248-260 | at rest without dead letters every submitted transaction is PROCESSED |
| `Delivery.ReadableNeverBuried` | services/processor/consumers/transaction_consumer.py:179-213 | with a limit of two deliveries or more, consumers dead-letter only messages that cannot be parsed |
| `Delivery.OneDeliveryBuriesReadable` | services/processor/consumers/transaction_consumer.py:319-326 | a run in which a limit of one dead-letters a readable message at its first reclaim |
| `Chances.TakesEffectIffChance` | services/processor/consumers/transaction_consumer.py:167-270 | from every reachable state, for every assignment of evidence to messages and any delivery limit: some way on, with every detection deciding on its evidence, has the event take effect exactly if it is done already, or its row waits, or a copy is undelivered or may still be reclaimed within the limit, or a consumer has it in hand whose commit no key refuses |
| `Chances.EventCanTakeEffect` | services/processor/consumers/compensation_consumer.py:149-250 | and then it has taken effect exactly once |
| `Chances.ChanceFromTwo` | services/processor/consumers/transaction_consumer.py:179-213 | from a limit of two deliveries on, every event has a chance that the publisher has not given up on |
| `Chances.CrashTakesLastChance` | services/processor/consumers/transaction_consumer.py:319-326 | a run in which, with a limit of one, a crash between delivery and commit leaves a published event without a chance |
| `Chances.PendingCanFinish` | services/processor/consumers/compensation_consumer.py:269-287 | from every reachable state a pending message can be reclaimed, dealt with and acknowledged; a readable one with its event in the inbox, from a limit of two on |
| `Chances.EntryCanBeHandled` | services/processor/consumers/transaction_consumer.py:365-389 | so can every stream entry; a readable one with its event in the inbox if it has not been delivered yet, whatever the limit, or from a limit of two on |
| `Chances.WaitingCanBePublished` | services/outbox_publisher/publisher.py:78-86 | from every reachable state a waiting event can be published, with a new copy in the streams, also one that a crashed replica holds |
| `Drain.CanDrain` | services/outbox_publisher/publisher.py:187-223 | from every reachable state, whatever the evidence, some run leads to rest: no batch open, no consumer in the middle of a call, nothing waiting, undelivered or pending, the events of the alerts raised on the way included |
| `Drain.CanDrainCompletely` | services/processor/consumers/transaction_consumer.py:167-270 | given a limit of two deliveries or more, with every event that was not dead-lettered processed exactly once by every group that reads it |
| `ProtocolInvariants.RunInv` | services/outbox_publisher/publisher.py:196-223 | the whole protocol invariant holds in every reachable state |
| `ProtocolInvariants.StepGrows` | services/processor/services/detection_pipeline.py:341-350 | no step takes back an inbox row, an audit row, a dead-letter row, an event, an alert's stamps or a terminal status |
| `ProtocolInvariants.SettleEffect` | services/outbox_publisher/publisher.py:204-222 | a committed batch attempts each of its rows once and leaves one dead-letter row for each that it gives up on |
| `Origins.EventOrigin` | services/gateway/services/ingestion.py:119-132 | exactly one step of a run has added an event; the event says what that step did, goes to the stream for it, waits at first and was created at the step's instant |
| `Origins.TransactionOrigin` | services/gateway/services/ingestion.py:90-103 | a transaction has key, user and instant of the submission that inserted it |
| `Origins.ProcessedOrigin` | services/processor/services/detection_pipeline.py:248-260 | processed_at is the instant of the detection of that transaction |
| `Origins.StampOrigin` | services/processor/scheduler/escalation_scheduler.py:73-92 | each stamp of an alert is the instant of the tick or the resolution that set it |
| `Origins.PublishedOrigin` | services/outbox_publisher/publisher.py:201-208 | published_at is the instant of a batch in which the XADD of that event was answered |
| `Origins.RowsAreTruthful` | services/gateway/services/alert_actions.py:231-247 | in every reachable state an audit row names the status before the move, or UNRESOLVED for a resolution, and a dead-letter row has its cause |
| `RelaySafety.RelayInvariant` | services/outbox_publisher/publisher.py:78-86 | with any number of replicas batches are disjoint, a pending event has attempts left, a published one is in its stream, a dead-lettered one has used up its attempts and has one dead-letter row |
| `RelaySafety.SettledIsFinal` | services/outbox_publisher/publisher.py:206-208 | published and dead-lettered rows never change again |
| `RelaySafety.OneCopyEach` | services/outbox_publisher/publisher.py:204-222 | only lost answers and rolled-back batches duplicate: without either the streams hold one copy of each event that is published or about to be committed as such, and none of any other |
| `RelayFairness.BoundedWait` | services/outbox_publisher/publisher.py:78-86 | in every run with one committing replica a waiting event is attempted within W / BATCH_SIZE + 1 batches, W being the retry budgets left to the events whose steps were taken at the same instant or before |
| `RelayFairness.BacklogDrains` | services/outbox_publisher/publisher.py:151-180 | in every reachable state, with any number of replicas, a commit lowers the retry budget of the whole outbox by the size of its batch or more |
| `RelayFairness.BacklogGone` | services/outbox_publisher/publisher.py:151-222 | over every run: once batches have committed as many attempts as there were retries left, with any number of replicas and nothing added, no event waits, even if every XADD has failed |
| `RelayFairness.EmptyPoll` | services/outbox_publisher/publisher.py:78-86 | a poll is empty exactly when every waiting event is held by some replica |
| `RelayFairness.PollExists` | services/outbox_publisher/publisher.py:78-86 | the polling query always has an answer |
| `RelayFairness.PollOldestFirst` | services/outbox_publisher/publisher.py:78-86 | in every reachable state a poll takes no event while an unlocked waiting one from an earlier step stays behind |
| `RelayFairness.PollSize` | services/outbox_publisher/publisher.py:78-86 | a poll takes as many of the waiting events that nobody holds as there are, up to the limit |
| `Publisher.HandlePublishFailure` | services/outbox_publisher/publisher.py:142-185 | a failure raises the retry count, and at the limit the event is dead-lettered with a row of its own |
| `Publisher.PublishOne` | services/outbox_publisher/publisher.py:205-220 | one attempt: what the stream receives, how the row changes, which dead-letter row is added |
| `Publisher.PublishEach` | services/outbox_publisher/publisher.py:204-220 | the loop leaves every row up to the one it was stopped at attempted and the streams with every stored copy in order |
| `Publisher.PublishBatch` | services/outbox_publisher/publisher.py:187-223 | streams keep every stored attempt; the tables, in which other rows may have changed since the poll, change by exactly the settled batch, or not at all when the commit fails or the worker is stopped before it |
| `Publisher.CommitIsSettle` | services/outbox_publisher/publisher.py:222 | writing the rows held in memory back is the settlement of the batch in order |
| `Publisher.BatchIsRun` | services/outbox_publisher/publisher.py:196-223 | a batch of the method is a run of the protocol with any steps of others between poll, attempts and commit, whether it commits, is rolled back or breaks off, and meets the rows as it polled them |
| `Publisher.LocksHold` | services/outbox_publisher/publisher.py:78-86 | whatever others do, nobody changes a row of a batch in progress |
| `Counters.NeverTooMuch` | services/processor/services/detection_pipeline.py:323-339 | however updates are lost: total ≤ alerts, false positives ≤ processed compensations ≤ false alerts ≤ alerts, score in [0, 1], and compensation always finds a profile |
| `Counters.TotalExact` | services/processor/services/detection_pipeline.py:324-339 | the total equals the number of alerts exactly when no alert was counted from a stale read |
| `Counters.FalsePositivesExact` | services/processor/services/compensation_service.py:56-57 | the false-positive count equals the processed compensations exactly when none was counted from a stale read |
| `Counters.Conservation` | services/processor/services/compensation_service.py:58-64 | without stale writes the profile is the sum of the tables, and the clamp at zero never has anything to do |
| `Counters.ScoreZeroBefore` | services/processor/services/detection_pipeline.py:323-339 | until the first compensation of a user the score is zero, however many alerts there are and whatever updates are lost |
| `Counters.ScoreExact` | services/processor/services/compensation_service.py:56-67 | over every run without stale reads the score is the net score of alerts and processed compensations as they were at the last compensation |
| `Counters.LostUpdate` | services/processor/services/detection_pipeline.py:324-330 | whenever two detections have read the same profile, both alerts are raised and one is counted |
| `LostUpdates.LostAlert` | services/processor/services/detection_pipeline.py:323-339 | a run from the clean start, every detection deciding on evidence that alerts, in which three alerts are raised and two counted |
| `LostUpdates.LostCompensation` | services/processor/services/compensation_service.py:53-57 | such a run that ends with fewer false positives counted than compensations processed |
| `Counters.AtRestEveryFalseAlertCounted` | services/gateway/services/alert_actions.py:275-295 | at rest, without dead letters and stale writes, the profile counts every FALSE_POSITIVE alert |
| `Counters.CompensationsAreFalseAlerts` | services/gateway/services/alert_actions.py:276-295 | processed recalculation events come from distinct FALSE_POSITIVE alerts |
| `Compensation.RecalculateUserRiskProfile` | services/processor/services/compensation_service.py:23-82 | the loaded profile is updated in place to one more false positive and the net score, or created when there is none |
| `Compensation.LowersIff` | services/processor/services/compensation_service.py:58-66 | exactly when a compensation lowers or keeps the score |
| `Compensation.FirstCompensationRaises` | services/processor/services/compensation_service.py:58-66 | a profile whose score a compensation raises from zero to one |
| `Compensation.RepeatedFalls` | services/processor/services/compensation_service.py:58-66 | from the first compensation on the score only falls, and is zero exactly when every alert has been marked |
| `AlertHistory.AuditReplays` | services/gateway/services/alert_actions.py:231-247 | the audit log of an alert is a chain of allowed moves from PENDING that ends in its status; no status occurs twice and a terminal one is last |
| `AlertHistory.EventsMatchAudit` | services/processor/scheduler/escalation_scheduler.py:101-140 | one event for each audited move and none for any other; a recalculation event exactly for a FALSE_POSITIVE alert |
| `AlertHistory.HistoryIsFinal` | services/gateway/services/alert_actions.py:183-190 | an alert's history is only added to, and a resolved alert never changes again in any column |
| `AlertHistory.AlertOrigin` | services/processor/services/detection_pipeline.py:270-285 | an alert reports transaction, user, severity, score and instant of the one detection that raised it, however it has moved since |
| `AlertHistory.OneResolutionWins` | services/gateway/services/alert_actions.py:183-229 | the number of resolutions that succeed is one if the alert ends resolved and zero otherwise |
| `AlertHistory.WinnerDecides` | services/gateway/services/alert_actions.py:183-205 | the resolution that won decides the status for good |
| `AlertHistory.EscalationOnTime` | services/processor/scheduler/escalation_scheduler.py:58-94 | email at least EMAIL_MINUTES after creation, slack at least SLACK_MINUTES after email, no slack without email, resolved_at exactly for terminal alerts |
| `LedgerInvariants.DetectionKeeps` | services/processor/services/detection_pipeline.py:248-350 | the detection commit keeps outbox, audit trail and inbox in step with the tables |
| `LedgerInvariants.CompensationKeeps` | services/processor/consumers/compensation_consumer.py:215-232 | so does the compensation commit |
| `LedgerInvariants.ResolutionKeeps` | services/gateway/services/alert_actions.py:183-298 | so does a resolution |
| `LedgerInvariants.EscalationKeeps` | services/processor/scheduler/escalation_scheduler.py:73-140 | so does each escalated row |
| `LedgerInvariants.InsertKeeps` | services/gateway/services/ingestion.py:90-135 | so does a submission |
| `Escalation.EscalateOne` | services/processor/scheduler/escalation_scheduler.py:74-140 | one conditional update with its audit row and event, or nothing |
| `Escalation.EscalateTier` | services/processor/scheduler/escalation_scheduler.py:73-142 | of a selection that may be stale a tier moves exactly the alerts still in their status, and its count equals the audit rows and the events it adds |
| `Escalation.RunEscalationTick` | services/processor/scheduler/escalation_scheduler.py:48-253 | both tiers in one transaction, on tables that may have changed since the queries, of which the second sees the rows written by the first tier; the counts equal the audit rows and events added; with a slack delay no alert moves twice |
| `Escalation.NotTwiceAtOnce` | services/processor/scheduler/escalation_scheduler.py:156-195 | over every run: with a slack delay no alert is moved twice at one instant, by one scheduler or by several |
| `Escalation.SameTickIffNoDelay` | services/processor/scheduler/escalation_scheduler.py:156-163 | an alert is ripe for the second tier in the tick of the first exactly when the slack delay is zero |
| `Escalation.SelectionExact` | services/processor/scheduler/escalation_scheduler.py:58-70 | each tier selects alerts in its status and due by its own column, oldest by that column first, up to the batch size |
| `Escalation.BoundedWait` | services/processor/scheduler/escalation_scheduler.py:58-70 | in every run with one scheduler an overdue alert behind n others has left PENDING within n / ESCALATION_BATCH_SIZE + 1 ticks |
| `Escalation.TierIsRun` | services/processor/scheduler/escalation_scheduler.py:69-142 | from every state in which a scheduler holds a selection, stale or not, a tier of the method is a legal run of the protocol with the same tables |
| `AlertActions.ResolveAlert` | services/gateway/services/alert_actions.py:157-317 | every outcome of a resolution with its exact condition, on tables that may have changed between its update and its second query; failures leave the tables alone |
| `AlertActions.FirstResolutionSucceeds` | services/gateway/services/alert_actions.py:183-229 | at any moment of any run a valid resolution of an alert succeeds exactly when none of that alert has been committed, and otherwise fails with the status that the one committed has set |
| `AlertActions.NotFoundIffNeverRaised` | services/gateway/services/alert_actions.py:207-214 | a resolution finds no alert exactly when no detection of the run has raised it by its second query |
| `AlertActions.OpenRefusedIffRaisedBetween` | services/gateway/services/alert_actions.py:204-229 | a valid resolution is refused for a status that is open exactly when the alert was raised between update and second query and has not been resolved since |
| `TransactionLifecycle.Lifecycle` | services/processor/services/detection_pipeline.py:248-350 | a transaction has exactly one transaction.created event, is PROCESSED exactly when that event is in the inbox, and has at most one alert |
| `TransactionLifecycle.SerializedHeldOnce` | services/gateway/services/ingestion.py:71-90 | if nobody looks a key up during another submission of it, at most one submission holds the key, a held key is unknown, and the key names at most one transaction |
| `TransactionLifecycle.KeyUniqueIffNotOvertaken` | services/gateway/services/ingestion.py:71-135 | over every run a key names at most one transaction exactly when no insert of it falls between the lookup and the insert of another submission |
| `TransactionLifecycle.KeyAndInstantUnique` | shared/models/transaction.py:35 | no two transactions of a run have both key and instant in common |
| `TransactionLifecycle.RepeatFindsOriginal` | services/gateway/services/ingestion.py:76-84 | while nobody looks a key up during another submission of it, every later lookup finds the transaction that took it first, alone |
| `TransactionLifecycle.OverlappingSubmissions` | shared/models/transaction.py:35 | a run in which two overlapping submissions of one key both go through |
| `Ingestion.SubmitTransaction` | services/gateway/services/ingestion.py:67-142 | a new key inserts transaction and event under the requested key, or a drawn one if none or an empty one is requested; a known key returns the original and writes nothing, one with several owners fails, and so does an insert that the unique index refuses |
| `Ingestion.RequestedKeyDecides` | services/gateway/services/ingestion.py:68-135 | whatever key the server draws, the transaction that alone has the requested one answers and nothing is written, and if none has it the new one is inserted under it |
| `Ingestion.DrawnKeyDecides` | services/gateway/services/ingestion.py:68 | without a key or with an empty one a submission is one of the drawn key |
| `Ingestion.RepeatReturnsOriginal` | services/gateway/services/ingestion.py:71-84 | over every run in which nobody looks the key up during another submission of it, a repeated request returns the original transaction and writes nothing |
| `Ingestion.SubmitIsRun` | services/gateway/services/ingestion.py:71-135 | a submission of a new key, requested or drawn, is the check and the insert or failure of the protocol, with any steps of others in between |
| `Consumers.HandleDeadLetter` | services/processor/consumers/transaction_consumer.py:136-165 | the dead-letter row is committed before the acknowledgement; a failure of either raises |
| `Consumers.ProcessTransactionEvent` | services/processor/services/detection_pipeline.py:125-362 | detection commits the alert, its event, the profile, the status and the inbox row together, or nothing when the commit fails or a primary key refuses it; it decides from rules, model score and the first read of the profile, and counts on top of the second |
| `Consumers.ProcessTransactionMessage` | services/processor/consumers/transaction_consumer.py:167-270 | tables, pending entries and result of one call for every fault of inbox query, commit and XACK and for every change of the tables between snapshot, second query and commit |
| `Consumers.ProcessCompensationMessage` | services/processor/consumers/compensation_consumer.py:149-250 | the same for the compensation consumer, where a failed query or XACK is an exception |
| `Consumers.TransactionMessageIsRun` | services/processor/consumers/transaction_consumer.py:178-270 | a call of the transaction consumer, with a message delivered or reclaimed, is a legal run of the protocol with the same tables and pending entries and a decision on its evidence, with any steps of others between its queries and its commit |
| `Consumers.CompensationMessageIsRun` | services/processor/consumers/compensation_consumer.py:158-250 | so is a call of the compensation consumer |
| `Rules.EvaluateRules` | services/processor/domain/rules.py:243-263 | the loop returns the matches of the triggering rules in order |
| `Rules.MatchesSelect` | services/processor/domain/rules.py:253-263 | the matches are an order-preserving selection that skips no triggering rule, each with identifier, type and severity of its rule |
| `Rules.FirstKeyDecides` | services/processor/domain/rules.py:26 | for any parameters and any list of keys exactly one key decides: every key before it is falsy, and it is truthy or the last |
| `Rules.AmountRule` | services/processor/domain/rules.py:21-60 | for any parameters, an amount rule triggers exactly when it is enabled, the payment is in its currency up to case if it names one, and the amount reaches the number under the deciding key, or exceeds it with an operator other than >= |
| `Rules.RiskRule` | services/processor/domain/rules.py:146-180 | a user-risk rule triggers exactly when it is enabled and the known score reaches the number under the deciding key |
| `Rules.VelocityRule` | services/processor/domain/rules.py:95-143 | a velocity rule triggers exactly when it is enabled and the count reaches the integer under the deciding key of the one limit or the total the number under that of the other |
| `Rules.ReadsInteger` | services/processor/domain/rules.py:108-118 | a count limit loses its fraction towards zero, and reads from a number, a text or a truth value alone |
| `Rules.EitherLimit` | services/processor/domain/rules.py:107-129 | for any parameters a velocity rule triggers exactly when the same rule with its count limit or its total limit alone does |
| `Rules.CountryRule` | services/processor/domain/rules.py:63-92 | a country rule triggers exactly when it is enabled and an item of the deciding list is the name of the country |
| `Rules.CategoryRule` | services/processor/domain/rules.py:183-213 | a category rule triggers exactly when it is enabled and an item of the deciding list is the name of the merchant category |
| `Rules.SameNameIff` | services/processor/domain/rules.py:77-80 | two texts are the same name exactly when, surrounding blanks aside, they agree letter by letter up to case |
| `Rules.ListsUpToCase` | services/processor/domain/rules.py:77-80 | lists that name the same up to case and blanks, in whatever order and however often, contain the same names |
| `Rules.TriggersMonotone` | services/processor/domain/rules.py:21-213 | a rule that triggers goes on to trigger when amount, activity or risk rise |
| `Rules.MatchesMonotone` | services/processor/domain/rules.py:216-263 | no match disappears when they rise or rules are added anywhere |
| `Rules.ZeroOnlyLast` | services/processor/domain/rules.py:26-158 | for any numeric rule a zero is the bound exactly under the last key with every other key falsy, and what the rule then does |
| `Rules.ZeroIsMissing` | services/processor/domain/rules.py:26-213 | for every kind of rule and any parameters, a zero or other falsy value under a key that is not last gives the same result as the parameters without that key |
| `Rules.ZeroThreshold` | services/processor/domain/rules.py:26-35 | an amount rule with a zero under `threshold` catches no payment, one with the same zero under `limit` every one |
| `Rules.FirstWrittenIff` | services/processor/domain/rules.py:26 | the rule works with the value written first exactly when it is truthy, or nothing truthy and the same value again is behind it |
| `Rules.NoBoundNoTrigger` | services/processor/domain/rules.py:28-130 | with falsy values alone and none under the last key a numeric rule of any kind never triggers |
| `Scoring.SeverityScoreIsMax` | services/processor/domain/composite_scoring.py:35-40 | the severity score is a quarter for each rank of the highest severity among the matches, zero without any |
| `Scoring.DetectionExact` | services/processor/domain/composite_scoring.py:35-112 | for any rules, context, model score and weights: the score is the nearest unit to the clamped sum of rule weight times worth of the gravest triggering rule, model weight times model score and profile weight times risk; the severity is critical for a critical rule or a score from 0.85 on, otherwise by the bounds 0.70 and 0.50; the alert is raised for such a rule or a score that reaches the threshold |
| `Scoring.WeightsBelong` | services/processor/domain/composite_scoring.py:53-57 | with one weight one and the others zero the composite is the component of that weight |
| `Scoring.SeverityBands` | services/processor/domain/composite_scoring.py:62-73 | the severity of a detection is CRITICAL for a critical rule that triggers, and otherwise the number of the bounds 0.50, 0.70 and 0.85 that its score reaches |
| `Scoring.CompositeBetween` | services/processor/domain/composite_scoring.py:43-59 | with weights that sum to one the clamp does nothing and the composite lies between its components |
| `Scoring.ThresholdExact` | services/processor/domain/composite_scoring.py:53-59 | the composite reaches a threshold exactly when the clamped sum, written out with each weight at its component, comes within half a unit of it |
| `Scoring.AlertExact` | services/processor/domain/composite_scoring.py:104-110 | an alert is raised exactly for a critical match or such a sum |
| `Scoring.DetectionMonotone` | services/processor/domain/composite_scoring.py:76-112 | raising amount, activity or risk, or adding rules, never lowers score or severity and never turns an alert off |
| `Scoring.OrderIrrelevant` | services/processor/services/rule_cache.py:66-68 | score, severity and alert are the same for every order of the active rules |
| `Decisions.TriggersIffFires` | services/processor/domain/rules.py:216-240 | which part of the evidence each type of rule compares with which of its parameters; the risk is that of the profile, zero without one |
| `Decisions.DecisionExact` | services/processor/domain/composite_scoring.py:76-139 | severity, score and alert of a decision, from evidence and profile in plain arithmetic |
| `Decisions.AlertReports` | services/processor/services/detection_pipeline.py:100-285 | over every run decided on its evidence, an alert carries severity and score that this makes of its transaction, on the profile its user had when the detection took its snapshot, and the instant of that detection |
| `Decisions.CriticalExample` | services/processor/domain/composite_scoring.py:97-112 | a critical match, model score 0.9 and default weights make 0.7700, CRITICAL |
| `Decisions.HighExample` | services/processor/domain/composite_scoring.py:97-112 | a high match and model score 1.0 make 0.6750, MEDIUM, an alert |
| `RuleCache.Cache.GetActiveRules` | services/processor/services/rule_cache.py:40-94 | a caller that meets no other refreshes exactly when forced or when the TTL has run out at both checks, to the valid rules of the rows |
| `RuleCache.AloneIsRun` | services/processor/services/rule_cache.py:48-94 | a call that meets no other is a run of the cache's machine with the same result, also when time passes and the tables change between its entry and the lock |
| `RuleCache.CacheRefinesLookup` | services/processor/services/rule_cache.py:48-94 | however callers interleave, each result is the valid enabled rules of some instant less than one TTL before the call, and for a forced call not before it |
| `RuleCache.RefreshesApart` | services/processor/services/rule_cache.py:60-63 | an unforced refresh comes at least one TTL after the refresh before it |
| `RuleCache.ValidRulesPermute` | services/processor/services/rule_cache.py:66-85 | the order in which the query answers does not change which rules are loaded |
| `RuleCache.ValidRulesSelect` | services/processor/services/rule_cache.py:70-85 | the loaded rules are the rows of known type and severity in their order, column by column |
| `RuleCache.EnabledRowsMembers` | services/processor/services/rule_cache.py:66 | the query answers with the enabled rows, each as often as it is there, and no others |
| `Autoclaim.Sweep` | services/processor/consumers/compensation_consumer.py:262-307 | the sweep terminates, processes the idle entries of the pages it reads in order up to the first that raises, and leaves exactly the others pending |
| `Autoclaim.Leaves` | services/processor/consumers/compensation_consumer.py:264-287 | what a sweep leaves of the entries it has paged through: those not acknowledged, an idle one with its idle time started anew |
| `Autoclaim.StopExact` | services/processor/consumers/compensation_consumer.py:271-303 | processing of a page stops at the first message that raises |
| `Autoclaim.PageExact` | services/processor/consumers/compensation_consumer.py:264-271 | a page ends with the last message it may claim, ten entries for each of these, or the list, whichever comes first |
| `Autoclaim.CompleteIff` | services/processor/consumers/compensation_consumer.py:289-291 | a sweep reaches every idle entry exactly when no empty page has a non-empty one behind it |
| `Autoclaim.SweepExactlyOnce` | services/gateway/consumers/notification_forwarder.py:293-326 | then, if none of them raises, it processes every idle entry, no other, and none twice |
| `Autoclaim.GapHides` | services/gateway/consumers/notification_forwarder.py:323-325 | a stretch of fresh entries as long as one scan hides every idle entry behind it |
| `Autoclaim.ReclaimPage` | services/processor/consumers/transaction_consumer.py:298-326 | one period: the page from the carried cursor is claimed and processed up to the first message that raises, and the cursor moves on in any case |
| `Autoclaim.CycleReaches` | services/processor/consumers/transaction_consumer.py:286-326 | one turn of the cursor, over a list that changes in any way between periods, claims every entry that stays pending and idle |
| `Autoclaim.ReachedWithin` | services/processor/consumers/transaction_consumer.py:286-326 | while no entry is added below it, an entry that stays idle, with m others between the cursor and it, is claimed within m / 50 + 1 periods |

## Left out

- `Escalation.RunEscalationTick`: that a transaction sees its own writes is a precondition.  The rows of one tier are updated on the same tables; a resolution that commits between two updates of a tier is a step of `Protocol`, as is one between queries and updates.
- `Consumers.ProcessTransactionMessage`: the inbox check and the snapshot of the profile see the same tables; in `Protocol` they are separate steps.
- `Consumers.ProcessCompensationMessage`: the same for the inbox check and the one profile query.
- `Chances.TakesEffectIffChance`: the evidence for a message stays the same over time, though activity in the window and cached rules may change before it is processed.
- In which order a consumer deals with the messages of one delivery: each is a worker of its own.
- `RuleCache.Cache.GetActiveRules`: one caller; interleaved callers are steps of the module's own machine.
- `Autoclaim.Sweep`: nobody else claims from the list during one sweep, and the shutdown check between messages is not modelled.
- `Autoclaim.ReclaimPage`: the same for one period; between periods the list may change in any way.
- The commit of an escalation tick is one transaction in the code and in `Escalation.RunEscalationTick`; `Protocol` commits it row by row, which allows more interleavings.
- Notification forwarder beyond its sweep: it has no inbox and delivers at least once.
- The monitoring copy that a dead-lettered message leaves in a DLQ stream, and what a dead-letter row stores besides event or message, group and count.
- The demo override of decisions, and the anomaly model, whose score is any real number here.
- `Rules.AmountRule`: a `currency` parameter that is not text, which the code turns into text, matches no payment.
- Reading numbers from text: a `Text` parameter carries what decimal and integer conversion make of it. Case folding and blanks are ASCII, and NaN and infinities do not occur.
- Decimal context precision and float formatting: weights, sums and scores are exact reals, and stored scores are whole units of 0.0001.
- Velocity queries over transactions: the activity in the window is a parameter of detection.
- Envelope and JSON parsing, correlation and trace propagation, metrics, logging, authentication, routes, WebSockets, list queries, migrations, administration and the frontend.
- The unique constraint on `alerts.transaction_id`: the model proves that it is never needed.
