// The statements of the queue, each as its effect on one row of `deliveries` and on the
// journal of that row. Every statement that writes a row goes through the trigger.

module Rows {
  import opened Types
  import opened Config
  import Retry

  /** The trigger: the earliest time a worker may take the row. */
  function Sync(row: Delivery, now: Time): Delivery {
    row.(claimableAt := match row.status
                        case Pending => row.nextAttemptAt
                        case InFlight => (match row.leaseExpiresAt case Some(t) => t case None => now)
                        case _ => row.nextAttemptAt)
  }

  predicate Open(row: Delivery) {
    row.status in {Pending, InFlight}
  }

  /** The condition of both phases of the claim query. */
  predicate Due(row: Delivery, now: Time) {
    Open(row) && row.claimableAt <= now
  }

  /** A row as the intake inserts it: queued, due at once, nothing attempted. */
  function NewRow(requestId: Id, r: Recipient, now: Time): Delivery {
    Sync(Delivery(requestId, r.name, r.url, r.origin, Pending, 0, 0, now, None, None,
                  None, None, None, None, None, None, now, now), now)
  }

  // --- claim --------------------------------------------------------------------

  function TakeRow(row: Delivery, now: Time, worker: WorkerId, lease: real): Delivery {
    Sync(row.(status := InFlight,
              attempts := row.attempts + 1,
              totalAttempts := row.totalAttempts + 1,
              lastAttemptAt := Some(now),
              leaseExpiresAt := Some(now + lease),
              lockedBy := Some(worker)), now)
  }

  function LostEntry(row: Delivery, now: Time, worker: WorkerId): Entry {
    var startedAt := match row.lastAttemptAt case Some(t) => t case None => now;
    Entry(row.requestId, row.attempts, row.url, startedAt, now, Unknown, Some("lease_expired"), None, None, worker)
  }

  predicate IsReclaim(row: Delivery) {
    row.status == InFlight && row.totalAttempts > 0
  }

  /** The placeholder for an attempt whose lease ran out; an existing entry is left alone. */
  function RecordLost(journal: Journal, row: Delivery, now: Time, worker: WorkerId): Journal {
    if IsReclaim(row) && row.totalAttempts !in journal
    then journal[row.totalAttempts := LostEntry(row, now, worker)]
    else journal
  }

  function ClaimOf(id: Id, taken: Delivery, request: Request): Claim {
    Claim(id, taken.requestId, taken.name, taken.url, taken.origin, taken.attempts, taken.totalAttempts, request)
  }

  // --- record the outcome ---------------------------------------------------------

  function MarkDelivered(row: Delivery, code: Option<int>, now: Time): Delivery {
    if row.status == Delivered then row
    else Sync(row.(status := Delivered,
                   deliveredAt := Some(now),
                   failedAt := None,
                   leaseExpiresAt := None,
                   lockedBy := None,
                   lastOutcome := Some(Success),
                   lastErrorKind := None,
                   lastStatusCode := code), now)
  }

  /** Applies only while the row is in flight under this worker's name. */
  function MarkFailure(row: Delivery, worker: WorkerId, result: AttemptResult,
                       exhausted: bool, delay: real, now: Time): Option<Delivery>
  {
    if row.lockedBy != Some(worker) || row.status != InFlight then None
    else Some(Sync(row.(status := if exhausted then Failed else Pending,
                        nextAttemptAt := if exhausted then row.nextAttemptAt else now + delay,
                        failedAt := if exhausted then Some(now) else None,
                        leaseExpiresAt := None,
                        lockedBy := None,
                        lastOutcome := Some(Failure),
                        lastErrorKind := result.errorKind,
                        lastStatusCode := result.statusCode), now))
  }

  /** Insert, or replace an 'unknown' placeholder; a known fact is never rewritten. */
  function InsertAttempt(journal: Journal, n: nat, e: Entry): Journal {
    if n !in journal then journal[n := e]
    else if journal[n].outcome == Unknown then
      journal[n := e.(requestId := journal[n].requestId,
                      budgetAttempt := journal[n].budgetAttempt,
                      url := journal[n].url,
                      startedAt := journal[n].startedAt)]
    else journal
  }

  /** A known fact stays; a placeholder takes over what was found out and keeps lead, budget position,
      address and start. */
  lemma KnownFactStays(journal: Journal, n: nat, e: Entry)
    ensures var journal' := InsertAttempt(journal, n, e);
            && n in journal' && journal'.Keys == journal.Keys + {n}
            && (forall m :: m in journal && m != n ==> journal'[m] == journal[m])
            && (n !in journal ==> journal'[n] == e)
            && (n in journal && journal[n].outcome in {Success, Failure} ==> journal'[n] == journal[n])
            && (n in journal && journal[n].outcome == Unknown ==>
                  && (journal'[n].requestId, journal'[n].budgetAttempt, journal'[n].url, journal'[n].startedAt)
                     == (journal[n].requestId, journal[n].budgetAttempt, journal[n].url, journal[n].startedAt)
                  && (journal'[n].finishedAt, journal'[n].outcome, journal'[n].errorKind, journal'[n].statusCode)
                     == (e.finishedAt, e.outcome, e.errorKind, e.statusCode)
                  && (journal'[n].scheduledNextAt, journal'[n].worker) == (e.scheduledNextAt, e.worker))
  {
  }

  function EntryFor(worker: WorkerId, claim: Claim, result: AttemptResult, scheduled: Option<Time>): Entry {
    Entry(claim.requestId, claim.budgetAttempt, claim.url, result.startedAt, result.finishedAt,
          if result.succeeded then Success else Failure, result.errorKind, result.statusCode, scheduled, worker)
  }

  /** The whole transaction that records one result. An error rolls everything back. */
  function RecordResult(s: Settings, row: Delivery, journal: Journal, worker: WorkerId,
                        claim: Claim, result: AttemptResult, draw: real, now: Time)
    : Result<(Delivery, Journal), Retry.RetryError>
  {
    if result.succeeded then
      Ok((MarkDelivered(row, result.statusCode, now),
          InsertAttempt(journal, claim.attemptNumber, EntryFor(worker, claim, result, None))))
    else
      match Retry.NextDelay(s, claim.budgetAttempt, draw)
      case Err(e) => Err(e)
      case Ok(delay) =>
        var exhausted := Retry.IsExhausted(s, claim.budgetAttempt);
        match MarkFailure(row, worker, result, exhausted, delay, now)
        case None => Ok((row, InsertAttempt(journal, claim.attemptNumber, EntryFor(worker, claim, result, None))))
        case Some(marked) =>
          var scheduled := if marked.status == Failed then None else Some(marked.nextAttemptAt);
          Ok((marked, InsertAttempt(journal, claim.attemptNumber, EntryFor(worker, claim, result, scheduled))))
  }

  // --- manual retry ---------------------------------------------------------------

  datatype Action = SkipInFlight | SkipDelivered | Requeued

  function Classify(row: Delivery, includeDelivered: bool, now: Time): Action {
    if row.status == InFlight && row.leaseExpiresAt.Some? && row.leaseExpiresAt.value > now then SkipInFlight
    else if row.status == Delivered && !includeDelivered then SkipDelivered
    else Requeued
  }

  function RequeueRow(row: Delivery, includeDelivered: bool, now: Time): Delivery {
    if Classify(row, includeDelivered, now) != Requeued then row
    else Sync(row.(status := Pending,
                   attempts := 0,
                   nextAttemptAt := now,
                   leaseExpiresAt := None,
                   lockedBy := None,
                   failedAt := None,
                   deliveredAt := None), now)
  }
}
