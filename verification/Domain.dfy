/**
 The vocabulary shared by the gateway, the processor and the outbox publisher: identifiers,
 statuses, table rows and event bodies.  Identifiers stand for UUIDs, instants for UTC
 timestamps, and scores for four-decimal values counted in units of 0.0001.
 */
module Domain {

  datatype Option<+T> = None | Some(value: T)

  type TxnId = nat
  type UserId = nat
  type AlertId = nat
  type EventId = nat
  type Instant = int

  datatype TransactionStatus = Submitted | Processing | Processed | ProcessingFailed

  datatype AlertStatus = Pending | EscalatedEmail | EscalatedSlack | Approved | Blocked | FalsePositive {
    predicate Terminal() {
      Approved? || Blocked? || FalsePositive?
    }
  }

  datatype AlertSeverity = Low | Medium | High | Critical

  datatype OutboxStatus = Waiting | Published | DeadLettered

  datatype Stream = Transactions | Alerts | Escalations | Compensation

  /** The two consumer groups of the processor that keep an inbox. */
  datatype Group = ProcessorGroup | CompensationGroup

  function StreamFor(g: Group): Stream {
    match g
    case ProcessorGroup => Transactions
    case CompensationGroup => Compensation
  }

  /** What an outbox event says: its type together with the payload fields a consumer acts on. */
  datatype EventBody =
    | TransactionCreated(txn: TxnId, user: UserId, at: Instant)
    | AlertCreated(alert: AlertId, txn: TxnId, user: UserId)
    | AlertResolved(alert: AlertId, user: UserId, status: AlertStatus)
    | EscalationRequested(alert: AlertId, user: UserId, status: AlertStatus)
    | RiskRecalculate(user: UserId, alert: AlertId)

  /** The stream an event is relayed to, by the prefix of its type. */
  function StreamOf(b: EventBody): Stream {
    match b
    case TransactionCreated(_, _, _) => Transactions
    case AlertCreated(_, _, _) => Alerts
    case AlertResolved(_, _, _) => Alerts
    case EscalationRequested(_, _, _) => Escalations
    case RiskRecalculate(_, _) => Compensation
  }

  datatype Txn = Txn(key: string, user: UserId, createdAt: Instant,
                     status: TransactionStatus, processedAt: Option<Instant>)

  datatype Alert = Alert(txn: TxnId, user: UserId, status: AlertStatus, severity: AlertSeverity, score: int,
                         createdAt: Instant, emailAt: Option<Instant>, slackAt: Option<Instant>,
                         resolvedAt: Option<Instant>)

  datatype OutboxRow = OutboxRow(body: EventBody, status: OutboxStatus, retries: nat,
                                 createdAt: Instant, publishedAt: Option<Instant>)

  datatype Profile = Profile(total: nat, falsePositives: nat, score: int)

  /** An audit row keeps what the row says about the move: the recorded origin and the new status. */
  datatype AuditOrigin = From(status: AlertStatus) | Unresolved

  datatype Audit = Audit(alert: AlertId, before: AuditOrigin, after: AlertStatus)

  /** A dead-letter row names the relayed event, or the stream message that a group gave up on. */
  datatype DeadLetter =
    | OfPublisher(event: EventId, retries: nat)
    | OfConsumer(group: Group, message: nat, deliveries: nat)

  /** The part of a detection result that reaches the tables. */
  datatype Decision = Decision(shouldAlert: bool, severity: AlertSeverity, score: int)

  /** The settings that shape the protocol, with the bounds that the settings classes enforce. */
  datatype Settings = Settings(
    maxRetries: nat,
    publishBatch: nat,
    maxDeliveries: nat,
    emailDelay: int,
    slackDelay: int,
    escalationBatch: nat)
  {
    predicate Valid() {
      1 <= maxRetries && 1 <= publishBatch && 1 <= maxDeliveries
      && 0 <= emailDelay && 0 <= slackDelay && 1 <= escalationBatch
    }
  }
}
