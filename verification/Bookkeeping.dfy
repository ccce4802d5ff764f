// Row and journal against each other: which attempts are missing from the journal, whether the
// status fits the budget, whether the row repeats its last entry - and exactly which reports spoil
// that.

module Bookkeeping {
  import opened Types
  import opened Config
  import opened Rows
  import opened Lanes
  import opened Faults
  import Retry
  import Sender

  // --- the journal -----------------------------------------------------------------------------

  /** The journal holds every attempt except the one in flight, the gaps and the displaced. */
  ghost predicate JournalExact(lane: Lane) {
    forall n :: HasToken(lane, n) ==>
      (n in lane.journal
       <==> !(lane.row.status == InFlight && n == |lane.tokens|) && n !in lane.gaps && n !in lane.displaced)
  }

  lemma OnlyAttemptsJournalled(lane: Lane, n: nat)
    requires JournalTrue(lane)
    ensures n in lane.journal ==> HasToken(lane, n)
  {
    if n in lane.journal { assert EntryOk(lane, n); }
  }

  lemma TakeExact(s: Settings, now: Time, request: Request, lane: Lane, deed: Deed)
    requires LaneInv(s, now, request, lane) && JournalExact(lane) && deed.Take? && Can(s, now, lane, deed)
    ensures JournalExact(Do(s, now, lane, deed))
  {
    var lane' := Do(s, now, lane, deed);
    var k := |lane.tokens|;
    OnlyAttemptsJournalled(lane, k + 1);
    forall n: nat | HasToken(lane', n)
      ensures n in lane'.journal <==> n != k + 1 && n !in lane'.gaps && n !in lane'.displaced
    {
      if n <= k { assert HasToken(lane, n); }
    }
  }

  lemma RecordExact(s: Settings, now: Time, request: Request, lane: Lane, deed: Deed)
    requires Validated(s) && LaneInv(s, now, request, lane) && JournalExact(lane)
    requires deed.Record? && Can(s, now, lane, deed)
    ensures JournalExact(Do(s, now, lane, deed))
  {
    var lane' := Do(s, now, lane, deed);
    assert TokenOk(s, now, request, lane, deed.n - 1);
    RecordMoves(s, now, lane, deed);
    RecordEntries(s, now, request, lane, deed, lane');
    RecordStatus(s, now, request, lane, deed);
    forall n: nat | HasToken(lane', n)
      ensures n in lane'.journal
         <==> !(lane'.row.status == InFlight && n == |lane.tokens|) && n !in lane'.gaps && n !in lane'.displaced
    {
      assert HasToken(lane, n);
    }
  }

  /** A report takes a row out of flight if it is the newest attempt's own, or displaces it. */
  lemma RecordStatus(s: Settings, now: Time, request: Request, lane: Lane, deed: Deed)
    requires Validated(s) && LaneInv(s, now, request, lane) && deed.Record? && Can(s, now, lane, deed)
    ensures var row' := Do(s, now, lane, deed).row;
            && (lane.row.status != InFlight ==> row'.status != InFlight)
            && (lane.row.status == InFlight ==>
                  (row'.status != InFlight <==> deed.n == |lane.tokens| || Displaces(lane, deed)))
  {
    assert TokenOk(s, now, request, lane, deed.n - 1);
    HorizonBounds(s, lane.tokens[deed.n - 1].claim.budgetAttempt, deed.draw);
  }

  lemma ResetExact(s: Settings, now: Time, request: Request, lane: Lane, deed: Deed)
    requires LaneInv(s, now, request, lane) && JournalExact(lane) && deed.Reset?
    ensures JournalExact(Do(s, now, lane, deed))
  {
    var lane' := Do(s, now, lane, deed);
    forall n: nat | HasToken(lane', n)
      ensures n in lane'.journal
         <==> !(lane'.row.status == InFlight && n == |lane.tokens|) && n !in lane'.gaps && n !in lane'.displaced
    {
      assert HasToken(lane, n);
    }
  }

  /** In every run, whatever its reports. */
  lemma DeedExact(s: Settings, now: Time, request: Request, lane: Lane, deed: Deed)
    requires Validated(s) && LaneInv(s, now, request, lane) && JournalExact(lane) && Can(s, now, lane, deed)
    ensures JournalExact(Do(s, now, lane, deed))
  {
    match deed
    case Take(_, _) => TakeExact(s, now, request, lane, deed);
    case Record(_, _, _) => RecordExact(s, now, request, lane, deed);
    case Reset(_) => ResetExact(s, now, request, lane, deed);
    case _ =>
      forall n: nat | HasToken(lane, n) ensures HasToken(Do(s, now, lane, deed), n) {
      }
  }

  /** Attempt n was made, is over as far as the row goes, and is not in the journal. */
  predicate Missing(lane: Lane, n: nat) {
    HasToken(lane, n) && n !in lane.journal && !(lane.row.status == InFlight && n == |lane.tokens|)
  }

  /** A manual retry takes over a row whose lease ran out. */
  predicate TakesExpired(now: Time, lane: Lane, deed: Deed) {
    deed.Reset? && lane.row.status == InFlight && Classify(lane.row, deed.includeDelivered, now) == Requeued
  }

  /** There are two ways to lose an attempt from the journal, and no third: a report displaces it, or
      a manual retry takes over its expired row. */
  lemma WhatGoesMissing(s: Settings, now: Time, request: Request, lane: Lane, deed: Deed)
    requires Validated(s) && LaneInv(s, now, request, lane) && Can(s, now, lane, deed)
    ensures (exists n :: Missing(Do(s, now, lane, deed), n) && !Missing(lane, n))
       <==> Displaces(lane, deed) || TakesExpired(now, lane, deed)
  {
    var lane', k := Do(s, now, lane, deed), |lane.tokens|;
    if Displaces(lane, deed) {
      RecordStatus(s, now, request, lane, deed);
      RecordMissing(s, now, request, lane, deed);
      assert Missing(lane', k) && !Missing(lane, k);
    }
    if TakesExpired(now, lane, deed) {
      assert Missing(lane', k) && !Missing(lane, k);
    }
    forall n | Missing(lane', n) && !Missing(lane, n)
      ensures Displaces(lane, deed) || TakesExpired(now, lane, deed)
    {
      LostHow(s, now, request, lane, deed, n);
    }
  }

  lemma RecordMissing(s: Settings, now: Time, request: Request, lane: Lane, deed: Deed)
    requires Validated(s) && LaneInv(s, now, request, lane) && deed.Record? && Can(s, now, lane, deed)
    ensures var lane' := Do(s, now, lane, deed);
            && |lane'.tokens| == |lane.tokens| && deed.n in lane'.journal
            && forall n :: n != deed.n ==> (n in lane'.journal <==> n in lane.journal)
  {
    assert TokenOk(s, now, request, lane, deed.n - 1);
    RecordMoves(s, now, lane, deed);
    RecordEntries(s, now, request, lane, deed, Do(s, now, lane, deed));
  }

  lemma LostHow(s: Settings, now: Time, request: Request, lane: Lane, deed: Deed, n: nat)
    requires Validated(s) && LaneInv(s, now, request, lane) && Can(s, now, lane, deed)
    requires Missing(Do(s, now, lane, deed), n) && !Missing(lane, n)
    ensures Displaces(lane, deed) || TakesExpired(now, lane, deed)
  {
    if deed.Record? {
      RecordStatus(s, now, request, lane, deed);
      RecordMissing(s, now, request, lane, deed);
    }
  }

  // --- the budget --------------------------------------------------------------------------------

  ghost predicate BudgetRespected(s: Settings, row: Delivery) {
    && (row.status == Pending ==> row.attempts < s.retryMaxAttempts)
    && (row.status == Failed ==> row.attempts >= s.retryMaxAttempts)
  }

  /** What a failure makes of the row: nothing, unless the row is in flight under the reporter's name;
      then it fails or goes on as the reported attempt's place in the budget says. */
  lemma FailureMoves(s: Settings, now: Time, request: Request, lane: Lane, deed: Deed)
    requires Validated(s) && LaneInv(s, now, request, lane)
    requires deed.Record? && Can(s, now, lane, deed) && Sender.ErrorKind(deed.response).Some?
    ensures var t, row' := lane.tokens[deed.n - 1], Do(s, now, lane, deed).row;
            if lane.row.status == InFlight && lane.row.lockedBy == Some(t.worker)
            then row'.attempts == lane.row.attempts
                 && row'.status == if Retry.IsExhausted(s, t.claim.budgetAttempt) then Failed else Pending
            else row' == lane.row
  {
    assert TokenOk(s, now, request, lane, deed.n - 1);
    HorizonBounds(s, lane.tokens[deed.n - 1].claim.budgetAttempt, deed.draw);
  }

  /** The exact condition: from a state in which the status fits the budget, a step spoils that if and
      only if it is the failure of an older attempt that misjudges the one in flight. */
  lemma BudgetExact(s: Settings, now: Time, request: Request, lane: Lane, deed: Deed)
    requires Validated(s) && LaneInv(s, now, request, lane) && Can(s, now, lane, deed)
    requires BudgetRespected(s, lane.row)
    ensures BudgetRespected(s, Do(s, now, lane, deed).row) <==> !Misjudges(s, lane, deed)
  {
    if deed.Record? {
      assert TokenOk(s, now, request, lane, deed.n - 1);
      if Sender.ErrorKind(deed.response).Some? {
        FailureMoves(s, now, request, lane, deed);
      } else {
        RecordMoves(s, now, lane, deed);
      }
    }
  }

  // --- what steps other than reports leave alone ------------------------------------------------

  /** A claim writes status, counters, lease and owner and nothing else; a manual retry also the times of
      settlement; both keep what is known of the last attempt. A report keeps both counters, and the
      schedule unless it puts the row back in the queue. No other step writes the row. */
  lemma RowFrame(s: Settings, now: Time, lane: Lane, deed: Deed)
    requires Can(s, now, lane, deed)
    ensures var row, row' := lane.row, Do(s, now, lane, deed).row;
            && (row'.requestId, row'.name, row'.url, row'.origin, row'.createdAt)
               == (row.requestId, row.name, row.url, row.origin, row.createdAt)
            && (!deed.Record? ==> (row'.lastOutcome, row'.lastErrorKind, row'.lastStatusCode)
                                  == (row.lastOutcome, row.lastErrorKind, row.lastStatusCode))
            && (deed.Take? ==>
                  && row'.nextAttemptAt == row.nextAttemptAt && row'.lastAttemptAt == Some(now)
                  && row'.deliveredAt == row.deliveredAt && row'.failedAt == row.failedAt)
            && (deed.Record? ==> row'.attempts == row.attempts)
            && (deed.Record? && row'.status != Pending ==> row'.nextAttemptAt == row.nextAttemptAt)
            && (deed.Record? || deed.Reset? ==>
                  row'.lastAttemptAt == row.lastAttemptAt && row'.totalAttempts == row.totalAttempts)
            && (!deed.Take? && !deed.Record? && !deed.Reset? ==> row' == row)
  {
  }

  // --- the last entry --------------------------------------------------------------------------------

  /** A row that an attempt moved says the same as the journal entry of the last attempt. */
  ghost predicate LastEntryAgrees(lane: Lane) {
    var n, row := |lane.tokens|, lane.row;
    (row.status == Failed || row.status == Delivered || (row.status == Pending && row.attempts > 0)) ==>
      && n in lane.journal
      && var e := lane.journal[n];
      && e.outcome == (if row.status == Delivered then Success else Failure)
      && row.lastOutcome == Some(e.outcome)
      && row.lastErrorKind == e.errorKind
      && row.lastStatusCode == e.statusCode
      && e.scheduledNextAt == (if row.status == Pending then Some(row.nextAttemptAt) else None)
  }

  /** The last attempt's own report leaves row and entry in agreement. */
  lemma OwnReportAgrees(s: Settings, now: Time, request: Request, lane: Lane, deed: Deed)
    requires Validated(s) && LaneInv(s, now, request, lane) && LastEntryAgrees(lane)
    requires deed.Record? && Can(s, now, lane, deed) && deed.n == |lane.tokens|
    ensures LastEntryAgrees(Do(s, now, lane, deed))
  {
    assert TokenOk(s, now, request, lane, deed.n - 1);
    HorizonBounds(s, lane.tokens[deed.n - 1].claim.budgetAttempt, deed.draw);
    if deed.n in lane.journal { assert EntryOk(lane, deed.n); }
  }

  lemma OlderReport(s: Settings, now: Time, request: Request, lane: Lane, deed: Deed)
    requires Validated(s) && LaneInv(s, now, request, lane) && LastEntryAgrees(lane)
    requires deed.Record? && Can(s, now, lane, deed) && deed.n < |lane.tokens|
    ensures LastEntryAgrees(Do(s, now, lane, deed)) <==> !Usurps(lane, deed)
  {
    var k := |lane.tokens|;
    assert TokenOk(s, now, request, lane, deed.n - 1);
    OtherEntryStays(s, now, lane, deed, k);
    if k in lane.journal { assert EntryOk(lane, k); }
    if Sender.ErrorKind(deed.response).Some? {
      FailureMoves(s, now, request, lane, deed);
    } else {
      SuccessMoves(s, now, lane, deed);
    }
  }

  lemma SuccessMoves(s: Settings, now: Time, lane: Lane, deed: Deed)
    requires deed.Record? && Can(s, now, lane, deed) && Sender.ErrorKind(deed.response).None?
    ensures var row' := Do(s, now, lane, deed).row;
            if lane.row.status == Delivered then row' == lane.row
            else && row'.status == Delivered && row'.deliveredAt == Some(now) && row'.lastOutcome == Some(Success)
                 && row'.lastErrorKind == None && row'.lastStatusCode == Sender.StatusCode(deed.response)
  {
  }

  lemma OtherEntryStays(s: Settings, now: Time, lane: Lane, deed: Deed, k: nat)
    requires deed.Record? && Can(s, now, lane, deed) && lane.tokens[deed.n - 1].claim.attemptNumber != k
    ensures var lane' := Do(s, now, lane, deed);
            && |lane'.tokens| == |lane.tokens|
            && (k in lane'.journal <==> k in lane.journal)
            && (k in lane.journal ==> lane'.journal[k] == lane.journal[k])
  {
  }

  /** The exact condition: from a state in which row and last entry agree, a step spoils that if and
      only if it is a report about an older attempt that moves the row, other than a success that
      repeats the last entry word for word. */
  lemma LastEntryExact(s: Settings, now: Time, request: Request, lane: Lane, deed: Deed)
    requires Validated(s) && LaneInv(s, now, request, lane) && Can(s, now, lane, deed)
    requires LastEntryAgrees(lane)
    ensures LastEntryAgrees(Do(s, now, lane, deed)) <==> !Usurps(lane, deed)
  {
    if deed.Record? {
      if deed.n == |lane.tokens| {
        OwnReportAgrees(s, now, request, lane, deed);
      } else {
        OlderReport(s, now, request, lane, deed);
      }
    }
  }
}
