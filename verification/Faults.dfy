// The reports that can do damage. Each kind of fault is a condition on the state before the report,
// and each is exactly what breaks one promise: see Bookkeeping for the first three, Overlap for the
// last.

module Faults {
  import opened Types
  import opened Config
  import opened Lanes
  import Retry
  import Sender

  datatype Fault = Displacement | Misjudgement | Usurpation | Override

  /** A failure of an older attempt takes the row, and the older attempt stands on the other side of
      the budget than the one in flight: the row fails with budget left, or goes on without any. */
  predicate Misjudges(s: Settings, lane: Lane, deed: Deed) {
    && Displaces(lane, deed) && Sender.ErrorKind(deed.response).Some?
    && Retry.IsExhausted(s, lane.tokens[deed.n - 1].claim.budgetAttempt) != Retry.IsExhausted(s, lane.row.attempts)
  }

  /** The last entry happens to be the success that this one repeats, status code included. */
  predicate Echoes(lane: Lane, response: Sender.Response) {
    && |lane.tokens| in lane.journal
    && var e := lane.journal[|lane.tokens|];
    && e.outcome == Success && e.statusCode == Sender.StatusCode(response) && e.scheduledNextAt == None
  }

  /** A report about an older attempt moves the row away from what the last entry says. */
  predicate Usurps(lane: Lane, deed: Deed) {
    && deed.Record? && HasToken(lane, deed.n) && deed.n < |lane.tokens|
    && if Sender.ErrorKind(deed.response).None?
       then lane.row.status != Delivered && !Echoes(lane, deed.response)
       else Displaces(lane, deed)
  }

  /** The claim's request is on the wire with time left, or can still go out promptly. */
  predicate CanSend(s: Settings, now: Time, t: Token) {
    && t.fate == Held
    && match t.wire
       case Unsent => now + s.attemptDeadline <= t.claimedAt + s.lease
       case OnWire(start) => now < start + s.attemptDeadline
       case Closed(_, _) => false
  }

  /** The row is taken from a claim that can still send. */
  predicate Overrides(s: Settings, now: Time, lane: Lane, deed: Deed) {
    Displaces(lane, deed) && CanSend(s, now, lane.tokens[|lane.tokens| - 1])
  }

  predicate Commits(fault: Fault, s: Settings, now: Time, lane: Lane, deed: Deed) {
    match fault
    case Displacement => Displaces(lane, deed)
    case Misjudgement => Misjudges(s, lane, deed)
    case Usurpation => Usurps(lane, deed)
    case Override => Overrides(s, now, lane, deed)
  }

  /** Only a report about an older attempt can commit any of them. */
  lemma FaultsAreStale(fault: Fault, s: Settings, now: Time, lane: Lane, deed: Deed)
    requires Commits(fault, s, now, lane, deed)
    ensures deed.Record? && 1 <= deed.n < |lane.tokens|
  {
  }
}
