// The entities of the delivery service: the rows of its three tables and the
// values that travel between the queue, the sender and the worker.

module Types {
  datatype Option<+T> = None | Some(value: T)

  datatype Result<+T, +E> = Ok(value: T) | Err(error: E)

  /** Seconds on the database clock. */
  type Time = real

  /** A UUID. Only equality and the fact that ids are totally ordered matter. */
  type Id = int

  type WorkerId = string

  datatype Status = Pending | InFlight | Delivered | Failed

  datatype Outcome = Success | Failure | Unknown

  /** One entry of an intake request. The origin is the label derived from the URL. */
  datatype Recipient = Recipient(url: string, name: Option<string>, origin: string)

  /** A row of `requests`. */
  datatype Request = Request(sourceId: string, idempotencyKey: string, payload: string, receivedAt: Time)

  /** A row of `deliveries`. */
  datatype Delivery = Delivery(
    requestId: Id,
    name: Option<string>,
    url: string,
    origin: string,
    status: Status,
    attempts: nat,
    totalAttempts: nat,
    nextAttemptAt: Time,
    leaseExpiresAt: Option<Time>,
    lockedBy: Option<WorkerId>,
    lastAttemptAt: Option<Time>,
    lastOutcome: Option<Outcome>,
    lastErrorKind: Option<string>,
    lastStatusCode: Option<int>,
    deliveredAt: Option<Time>,
    failedAt: Option<Time>,
    createdAt: Time,
    claimableAt: Time)

  /** A row of `delivery_attempts`; its key (delivery, attempt number) is the map key. */
  datatype Entry = Entry(
    requestId: Id,
    budgetAttempt: nat,
    url: string,
    startedAt: Time,
    finishedAt: Time,
    outcome: Outcome,
    errorKind: Option<string>,
    statusCode: Option<int>,
    scheduledNextAt: Option<Time>,
    worker: WorkerId)

  /** The journal of one delivery, keyed by attempt number. */
  type Journal = map<nat, Entry>

  /** What a worker holds after claiming a delivery. */
  datatype Claim = Claim(
    deliveryId: Id,
    requestId: Id,
    name: Option<string>,
    url: string,
    origin: string,
    budgetAttempt: nat,
    attemptNumber: nat,
    request: Request)

  datatype AttemptResult = AttemptResult(
    succeeded: bool,
    errorKind: Option<string>,
    statusCode: Option<int>,
    startedAt: Time,
    finishedAt: Time)

  function Min(a: int, b: int): int {
    if a <= b then a else b
  }

  function Max(a: int, b: int): int {
    if a <= b then b else a
  }

  function MinR(a: real, b: real): real {
    if a <= b then a else b
  }

  function MaxR(a: real, b: real): real {
    if a <= b then b else a
  }
}
