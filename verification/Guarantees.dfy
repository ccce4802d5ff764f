// What the service promises, over whole runs that start from an empty database.

module Guarantees {
  import opened Types
  import opened Config
  import opened Rows
  import opened Lanes
  import opened Bookkeeping
  import opened Faults
  import opened Punctual
  import opened Wire
  import opened Protocol
  import ClaimQuery
  import History
  import Intake
  import Sender

  // --- one request on the wire at a time ---------------------------------------------------

  ghost predicate AllOrdered(s: Settings, w: World) {
    forall d :: d in w.lanes ==> WireOrdered(s, w.now, w.lanes[d])
  }

  ghost predicate PromptEvent(s: Settings, w: World, e: Event)
    requires Enabled(s, w, e)
  {
    forall d {:trigger PromptAt(s, w, e, d)} :: d in w.lanes ==> PromptAt(s, w, e, d)
  }

  lemma OldLaneOrdered(s: Settings, w: World, e: Event, d: Id)
    requires Validated(s) && d in w.lanes && LaneAt(s, w, d) && Enabled(s, w, e) && WireOrdered(s, w.now, w.lanes[d])
    requires PromptAt(s, w, e, d) && !Faulty(Override, s, w, e)
    ensures d in Apply(s, w, e).lanes && WireOrdered(s, Apply(s, w, e).now, Apply(s, w, e).lanes[d])
  {
    EventKeepsLane(s, w, e, d);
    var lane := w.lanes[d];
    match e
    case Tick(to) => WaitOrdered(s, w.now, to, lane);
    case Accept(_, _, _, _, _, _) =>
    case Attach(_, _, _) =>
    case _ => DeedOrdered(s, w.now, w.requests[lane.row.requestId], lane, DeedOf(w, e, d));
  }

  lemma EventOrdered(s: Settings, w: World, e: Event, d: Id)
    requires Validated(s) && WorldInv(s, w) && AllOrdered(s, w) && Enabled(s, w, e)
    requires PromptEvent(s, w, e) && !Faulty(Override, s, w, e) && d in Apply(s, w, e).lanes
    ensures WireOrdered(s, Apply(s, w, e).now, Apply(s, w, e).lanes[d])
  {
    if d in w.lanes {
      assert LaneAt(s, w, d) && PromptAt(s, w, e, d);
      OldLaneOrdered(s, w, e, d);
    } else {
      InsertFrames(w.lanes, w.now, e.requestId, Dedupe(e.recipients), e.ids);
      var r :| r in Dedupe(e.recipients) && Apply(s, w, e).lanes[d] == NewLane(d, NewRow(e.requestId, r, w.now));
      NewLaneOrdered(s, w.now, d, e.requestId, r);
    }
  }

  lemma EventSafe(s: Settings, w: World, e: Event)
    requires Validated(s) && WorldInv(s, w) && AllOrdered(s, w) && Enabled(s, w, e)
    requires PromptEvent(s, w, e) && !Faulty(Override, s, w, e)
    ensures AllOrdered(s, Apply(s, w, e))
  {
    var w' := Apply(s, w, e);
    forall d | d in w'.lanes ensures WireOrdered(s, w'.now, w'.lanes[d]) {
      EventOrdered(s, w, e, d);
    }
  }

  /** A run of prompt sends in which no report overrides a newer claim keeps the order on the wire. */
  lemma {:induction false} SafeRunKeeps(s: Settings, w: World, es: Run)
    requires Validated(s) && WorldInv(s, w) && AllOrdered(s, w)
    requires Legal(s, w, es) && Free(Override, s, w, es) && AllPrompt(s, w, es)
    ensures AllOrdered(s, Exec(s, w, es))
    decreases |es|
  {
    if es != [] {
      EventSafe(s, w, es[0]);
      EventKeeps(s, w, es[0]);
      SafeRunKeeps(s, Apply(s, w, es[0]), es[1..]);
    }
  }

  /** With validated settings and prompt sends, no two requests for the same delivery are ever on
      the wire together, whatever the workers, crashes, reclaims, manual retries and late reports
      do, as long as no report takes a row from a newer claim that can still send: the attempt with
      the lower number is over before the next starts. */
  lemma WireExclusion(s: Settings, t: Time, es: Run, d: Id, m: nat, n: nat)
    requires Validated(s) && Legal(s, Initial(t), es)
    requires Free(Override, s, Initial(t), es) && AllPrompt(s, Initial(t), es)
    requires var w := Exec(s, Initial(t), es);
             && d in w.lanes && HasToken(w.lanes[d], m) && HasToken(w.lanes[d], n) && m < n
             && !w.lanes[d].tokens[m - 1].wire.Unsent? && !w.lanes[d].tokens[n - 1].wire.Unsent?
    ensures var tokens := Exec(s, Initial(t), es).lanes[d].tokens;
            LatestEnd(s, tokens[m - 1].wire) <= tokens[n - 1].wire.start
  {
    var w := Exec(s, Initial(t), es);
    RunKeeps(s, Initial(t), es);
    SafeRunKeeps(s, Initial(t), es);
    assert LaneAt(s, w, d) && WireOrdered(s, w.now, w.lanes[d]);
    SendsExclude(s, w.now, w.requests[w.lanes[d].row.requestId], w.lanes[d], m, n);
  }

  // --- timely runs are free of faults ------------------------------------------------------

  ghost predicate AllOwned(s: Settings, w: World) {
    forall d :: d in w.lanes ==> OnlyOwnerLive(s, w.now, w.lanes[d])
  }

  ghost predicate TimelyEvent(s: Settings, w: World, e: Event)
    requires Enabled(s, w, e)
  {
    forall d {:trigger TimelyAt(s, w, e, d)} :: d in w.lanes ==> TimelyAt(s, w, e, d)
  }

  lemma EventOwned(s: Settings, w: World, e: Event, d: Id)
    requires Validated(s) && WorldInv(s, w) && AllOwned(s, w) && Enabled(s, w, e) && TimelyEvent(s, w, e)
    requires d in Apply(s, w, e).lanes
    ensures OnlyOwnerLive(s, Apply(s, w, e).now, Apply(s, w, e).lanes[d])
  {
    if d in w.lanes {
      assert LaneAt(s, w, d) && TimelyAt(s, w, e, d);
      EventKeepsLane(s, w, e, d);
      var lane := w.lanes[d];
      match e
      case Tick(to) => WaitOwned(s, w.now, to, lane);
      case Accept(_, _, _, _, _, _) =>
      case Attach(_, _, _) =>
      case _ => DeedTimely(s, w.now, w.requests[lane.row.requestId], lane, DeedOf(w, e, d));
    } else {
      InsertFrames(w.lanes, w.now, e.requestId, Dedupe(e.recipients), e.ids);
    }
  }

  lemma TimelyEventIsFree(fault: Fault, s: Settings, w: World, e: Event)
    requires WorldInv(s, w) && AllOwned(s, w) && Enabled(s, w, e) && TimelyEvent(s, w, e)
    ensures !Faulty(fault, s, w, e)
  {
    if Faulty(fault, s, w, e) {
      assert LaneAt(s, w, e.d) && Possible(s, w, e, e.d) && TimelyAt(s, w, e, e.d);
      var lane := w.lanes[e.d];
      FaultsAreStale(fault, s, w.now, lane, DeedOf(w, e, e.d));
      TimelyReporterOwns(s, w.now, w.requests[lane.row.requestId], lane, DeedOf(w, e, e.d));
    }
  }

  /** Timely reports are enough to be free of every fault, and far from necessary. */
  lemma {:induction false} TimelyRunsAreFree(fault: Fault, s: Settings, w: World, es: Run)
    requires Validated(s) && WorldInv(s, w) && AllOwned(s, w)
    requires Legal(s, w, es) && AllTimely(s, w, es)
    ensures Free(fault, s, w, es) && AllOwned(s, Exec(s, w, es))
    decreases |es|
  {
    if es != [] {
      var w' := Apply(s, w, es[0]);
      TimelyEventIsFree(fault, s, w, es[0]);
      forall d | d in w'.lanes ensures OnlyOwnerLive(s, w'.now, w'.lanes[d]) {
        EventOwned(s, w, es[0], d);
      }
      EventKeeps(s, w, es[0]);
      TimelyRunsAreFree(fault, s, w', es[1..]);
    }
  }

  // --- the journal -------------------------------------------------------------------------

  ghost predicate AllExact(w: World) {
    forall d :: d in w.lanes ==> JournalExact(w.lanes[d])
  }

  lemma EventExact(s: Settings, w: World, e: Event, d: Id)
    requires Validated(s) && WorldInv(s, w) && AllExact(w) && Enabled(s, w, e) && d in Apply(s, w, e).lanes
    ensures JournalExact(Apply(s, w, e).lanes[d])
  {
    if d in w.lanes {
      assert LaneAt(s, w, d);
      EventKeepsLane(s, w, e, d);
      if !(e.Tick? || e.Accept? || e.Attach?) {
        DeedExact(s, w.now, w.requests[w.lanes[d].row.requestId], w.lanes[d], DeedOf(w, e, d));
      }
    } else {
      InsertFrames(w.lanes, w.now, e.requestId, Dedupe(e.recipients), e.ids);
    }
  }

  lemma {:induction false} RunExact(s: Settings, w: World, es: Run)
    requires Validated(s) && WorldInv(s, w) && AllExact(w) && Legal(s, w, es)
    ensures AllExact(Exec(s, w, es))
    decreases |es|
  {
    if es != [] {
      var w' := Apply(s, w, es[0]);
      forall d | d in w'.lanes ensures JournalExact(w'.lanes[d]) {
        EventExact(s, w, es[0], d);
      }
      EventKeeps(s, w, es[0]);
      RunExact(s, w', es[1..]);
    }
  }

  lemma DeedDisplacesNothing(s: Settings, now: Time, request: Request, lane: Lane, deed: Deed)
    requires Validated(s) && LaneInv(s, now, request, lane) && Can(s, now, lane, deed)
    requires lane.displaced == {} && !Displaces(lane, deed)
    ensures Do(s, now, lane, deed).displaced == {}
  {
    if deed.Record? {
      assert TokenOk(s, now, request, lane, deed.n - 1);
      RecordMoves(s, now, lane, deed);
    }
  }

  lemma EventDisplacesNothing(s: Settings, w: World, e: Event, d: Id)
    requires Validated(s) && WorldInv(s, w) && Enabled(s, w, e) && !Faulty(Displacement, s, w, e)
    requires d in Apply(s, w, e).lanes && (d in w.lanes ==> w.lanes[d].displaced == {})
    ensures Apply(s, w, e).lanes[d].displaced == {}
  {
    if d in w.lanes {
      assert LaneAt(s, w, d);
      EventKeepsLane(s, w, e, d);
      if !(e.Tick? || e.Accept? || e.Attach?) {
        DeedDisplacesNothing(s, w.now, w.requests[w.lanes[d].row.requestId], w.lanes[d], DeedOf(w, e, d));
      }
    } else {
      InsertFrames(w.lanes, w.now, e.requestId, Dedupe(e.recipients), e.ids);
    }
  }

  lemma {:induction false} NothingDisplaced(s: Settings, w: World, es: Run)
    requires Validated(s) && WorldInv(s, w) && Legal(s, w, es) && Free(Displacement, s, w, es)
    requires forall d :: d in w.lanes ==> w.lanes[d].displaced == {}
    ensures forall d :: d in Exec(s, w, es).lanes ==> Exec(s, w, es).lanes[d].displaced == {}
    decreases |es|
  {
    if es != [] {
      var w' := Apply(s, w, es[0]);
      forall d | d in w'.lanes ensures w'.lanes[d].displaced == {} {
        EventDisplacesNothing(s, w, es[0], d);
      }
      EventKeeps(s, w, es[0]);
      NothingDisplaced(s, w', es[1..]);
    }
  }

  /** In every run the journal holds exactly the numbers 1..total_attempts, except the attempt in
      flight, those whose expired row a manual retry took over and those whose row a report about an
      older attempt took - each until it is itself reported. Without such reports the last exception
      is empty. */
  lemma JournalIsComplete(s: Settings, t: Time, es: Run, d: Id, n: nat)
    requires Validated(s) && Legal(s, Initial(t), es) && d in Exec(s, Initial(t), es).lanes
    ensures var lane := Exec(s, Initial(t), es).lanes[d];
            && (n in lane.journal <==> && 1 <= n <= lane.row.totalAttempts
                                       && !(lane.row.status == InFlight && n == lane.row.totalAttempts)
                                       && n !in lane.gaps && n !in lane.displaced)
            && (Free(Displacement, s, Initial(t), es) ==> lane.displaced == {})
  {
    var w := Exec(s, Initial(t), es);
    RunKeeps(s, Initial(t), es);
    RunExact(s, Initial(t), es);
    assert LaneAt(s, w, d) && JournalExact(w.lanes[d]);
    OnlyAttemptsJournalled(w.lanes[d], n);
    if Free(Displacement, s, Initial(t), es) { NothingDisplaced(s, Initial(t), es); }
  }

  /** An attempt goes missing from the journal in exactly two ways: a report about an older attempt
      takes its row while it is in flight, or a manual retry takes its expired row. */
  lemma TwoWaysToLoseAnEntry(s: Settings, w: World, e: Event, d: Id)
    requires Validated(s) && WorldInv(s, w) && Enabled(s, w, e) && d in w.lanes
    ensures d in Apply(s, w, e).lanes
    ensures (exists n :: Missing(Apply(s, w, e).lanes[d], n) && !Missing(w.lanes[d], n))
       <==> (e.Report? && e.d == d && Faulty(Displacement, s, w, e))
            || (w.lanes[d].row.status == InFlight && History.PutsBack(w, e, d))
  {
    assert LaneAt(s, w, d);
    EventKeepsLane(s, w, e, d);
    if !(e.Tick? || e.Accept? || e.Attach?) {
      WhatGoesMissing(s, w.now, w.requests[w.lanes[d].row.requestId], w.lanes[d], DeedOf(w, e, d));
    }
  }

  // --- budget and last entry -----------------------------------------------------------------

  ghost predicate AllBudgeted(s: Settings, w: World) {
    forall d :: d in w.lanes ==> BudgetRespected(s, w.lanes[d].row)
  }

  ghost predicate AllAgree(w: World) {
    forall d :: d in w.lanes ==> LastEntryAgrees(w.lanes[d])
  }

  lemma EventBudget(s: Settings, w: World, e: Event, d: Id)
    requires Validated(s) && WorldInv(s, w) && Enabled(s, w, e) && d in Apply(s, w, e).lanes
    requires d in w.lanes ==> BudgetRespected(s, w.lanes[d].row)
    ensures BudgetRespected(s, Apply(s, w, e).lanes[d].row)
       <==> !(e.Report? && e.d == d && Faulty(Misjudgement, s, w, e))
  {
    if d in w.lanes {
      assert LaneAt(s, w, d);
      EventKeepsLane(s, w, e, d);
      if !(e.Tick? || e.Accept? || e.Attach?) {
        BudgetExact(s, w.now, w.requests[w.lanes[d].row.requestId], w.lanes[d], DeedOf(w, e, d));
      }
    } else {
      InsertFrames(w.lanes, w.now, e.requestId, Dedupe(e.recipients), e.ids);
    }
  }

  lemma EventAgrees(s: Settings, w: World, e: Event, d: Id)
    requires Validated(s) && WorldInv(s, w) && Enabled(s, w, e) && d in Apply(s, w, e).lanes
    requires d in w.lanes ==> LastEntryAgrees(w.lanes[d])
    ensures LastEntryAgrees(Apply(s, w, e).lanes[d])
       <==> !(e.Report? && e.d == d && Faulty(Usurpation, s, w, e))
  {
    if d in w.lanes {
      assert LaneAt(s, w, d);
      EventKeepsLane(s, w, e, d);
      if !(e.Tick? || e.Accept? || e.Attach?) {
        LastEntryExact(s, w.now, w.requests[w.lanes[d].row.requestId], w.lanes[d], DeedOf(w, e, d));
      }
    } else {
      InsertFrames(w.lanes, w.now, e.requestId, Dedupe(e.recipients), e.ids);
    }
  }

  lemma {:induction false} RunAgrees(s: Settings, w: World, es: Run)
    requires Validated(s) && WorldInv(s, w) && Legal(s, w, es)
    ensures AllBudgeted(s, w) && Free(Misjudgement, s, w, es) ==> AllBudgeted(s, Exec(s, w, es))
    ensures AllAgree(w) && Free(Usurpation, s, w, es) ==> AllAgree(Exec(s, w, es))
    decreases |es|
  {
    if es != [] {
      var w' := Apply(s, w, es[0]);
      if AllBudgeted(s, w) && Free(Misjudgement, s, w, es) {
        forall d | d in w'.lanes ensures BudgetRespected(s, w'.lanes[d].row) {
          EventBudget(s, w, es[0], d);
        }
      }
      if AllAgree(w) && Free(Usurpation, s, w, es) {
        forall d | d in w'.lanes ensures LastEntryAgrees(w'.lanes[d]) {
          EventAgrees(s, w, es[0], d);
        }
      }
      EventKeeps(s, w, es[0]);
      RunAgrees(s, w', es[1..]);
    }
  }

  /** As long as no failure of an older attempt misjudges the one in flight, a queued row has budget
      left and a failed one has none. As long as no report about an older attempt moves the row away
      from it, the row repeats what the journal says of the last attempt, the pause included. */
  lemma RowAndJournalAgree(s: Settings, t: Time, es: Run, d: Id)
    requires Validated(s) && Legal(s, Initial(t), es) && d in Exec(s, Initial(t), es).lanes
    ensures Free(Misjudgement, s, Initial(t), es) ==> BudgetRespected(s, Exec(s, Initial(t), es).lanes[d].row)
    ensures Free(Usurpation, s, Initial(t), es) ==> LastEntryAgrees(Exec(s, Initial(t), es).lanes[d])
  {
    RunAgrees(s, Initial(t), es);
  }

  // --- all runs --------------------------------------------------------------------------

  /** No row gets stuck: whatever still has somewhere to go becomes claimable within a fixed
      horizon, at its backoff deadline or at its lease deadline, and only rows in flight have
      an owner. */
  lemma NoRowIsStuck(s: Settings, t: Time, es: Run, d: Id)
    requires Validated(s) && Legal(s, Initial(t), es) && d in Exec(s, Initial(t), es).lanes
    ensures var w := Exec(s, Initial(t), es);
            var row := w.lanes[d].row;
            && (Open(row) ==> row.claimableAt <= w.now + Horizon(s))
            && (row.status == Pending ==> row.claimableAt == row.nextAttemptAt)
            && (row.status == InFlight ==> row.leaseExpiresAt == Some(row.claimableAt))
            && (row.lockedBy.Some? <==> row.status == InFlight)
            && (row.leaseExpiresAt.Some? <==> row.status == InFlight)
  {
    RunKeeps(s, Initial(t), es);
    assert LaneAt(s, Exec(s, Initial(t), es), d);
  }

  /** Nothing is delivered on hearsay: a delivered row has a journal entry in which one of
      its own attempts was answered with a 2xx status. */
  lemma DeliveredMeansAnswered(s: Settings, t: Time, es: Run, d: Id)
    requires Validated(s) && Legal(s, Initial(t), es) && d in Exec(s, Initial(t), es).lanes
    requires Exec(s, Initial(t), es).lanes[d].row.status == Delivered
    ensures var lane := Exec(s, Initial(t), es).lanes[d];
            exists n :: n in lane.journal && HasToken(lane, n) && lane.journal[n].outcome == Success
                        && lane.tokens[n - 1].fate.Reported? && lane.tokens[n - 1].fate.response.Answer?
                        && 200 <= lane.tokens[n - 1].fate.response.code < 300
  {
    var w := Exec(s, Initial(t), es);
    RunKeeps(s, Initial(t), es);
    assert LaneAt(s, w, d);
    var lane := w.lanes[d];
    var n :| n in lane.journal && lane.journal[n].outcome == Success;
    assert EntryOk(lane, n);
  }

  /** Every attempt that was ever reported is in the journal as it was reported, under the
      worker that made it and with its own position in the budget. */
  lemma JournalIsAuthentic(s: Settings, t: Time, es: Run, d: Id, n: nat)
    requires Validated(s) && Legal(s, Initial(t), es) && d in Exec(s, Initial(t), es).lanes
    ensures var lane := Exec(s, Initial(t), es).lanes[d];
            && (n in lane.journal ==> EntryOk(lane, n))
            && (HasToken(lane, n) && lane.tokens[n - 1].fate.Reported? ==> n in lane.journal)
  {
    RunKeeps(s, Initial(t), es);
    assert LaneAt(s, Exec(s, Initial(t), es), d);
  }

  /** What one answer, or the lack of one, is worth, status by status. */
  ghost predicate Verdict(response: Sender.Response, outcome: Outcome, kind: Option<string>, code: Option<int>) {
    match response
    case NoAnswer(k) => outcome == Failure && kind == Some(k) && code == None
    case Answer(c) =>
      && code == Some(c)
      && (outcome == Success <==> 200 <= c < 300) && (outcome == Failure <==> !(200 <= c < 300))
      && kind == (if 200 <= c < 300 then None
                  else if 300 <= c < 400 then Some("http_redirect")
                  else if c == 408 || c == 425 || c == 429 then Some("http_retryable")
                  else if 400 <= c < 500 then Some("http_client_error")
                  else Some("http_server_error"))
  }

  /** In every run the journal tells of every reported attempt what was answered: success exactly for a
      2xx, the status code as it came, and otherwise the kind of error. */
  lemma JournalTellsTheAnswer(s: Settings, t: Time, es: Run, d: Id, n: nat)
    requires Validated(s) && Legal(s, Initial(t), es) && d in Exec(s, Initial(t), es).lanes
    requires var lane := Exec(s, Initial(t), es).lanes[d];
             HasToken(lane, n) && lane.tokens[n - 1].fate.Reported?
    ensures var lane := Exec(s, Initial(t), es).lanes[d];
            && n in lane.journal
            && var e, token := lane.journal[n], lane.tokens[n - 1];
            && Verdict(token.fate.response, e.outcome, e.errorKind, e.statusCode)
            && e.worker == token.worker && token.wire.Closed? && token.wire.end == e.finishedAt
  {
    var w := Exec(s, Initial(t), es);
    RunKeeps(s, Initial(t), es);
    assert LaneAt(s, w, d);
    assert EntryOk(w.lanes[d], n);
  }

  /** A report that moves the row shows the same on the row. */
  lemma RowTellsTheAnswer(s: Settings, w: World, e: Event)
    requires Validated(s) && WorldInv(s, w) && Enabled(s, w, e) && e.Report? && History.ReportMoves(w, e, e.d)
    ensures e.d in Apply(s, w, e).lanes
    ensures var row := Apply(s, w, e).lanes[e.d].row;
            row.lastOutcome.Some? && Verdict(e.response, row.lastOutcome.value, row.lastErrorKind, row.lastStatusCode)
  {
    var lane := w.lanes[e.d];
    assert LaneAt(s, w, e.d) && Possible(s, w, e, e.d);
    ReportShows(s, w.now, w.requests[lane.row.requestId], lane, DeedOf(w, e, e.d));
  }

  /** The rest of the entry. A placeholder keeps the start it has, the time of the claim; a pause is planned
      exactly if the report put the row back in the queue. */
  ghost predicate WrittenDown(lane: Lane, lane': Lane, n: nat) {
    && HasToken(lane, n) && lane.tokens[n - 1].wire.Closed? && n in lane'.journal
    && var entry, token := lane'.journal[n], lane.tokens[n - 1];
    && entry.requestId == lane.row.requestId && entry.url == lane.row.url && entry.worker == token.worker
    && entry.budgetAttempt == token.claim.budgetAttempt
    && entry.startedAt == (if n in lane.journal then token.claimedAt else token.wire.start)
    && entry.finishedAt == token.wire.end
    && entry.scheduledNextAt
       == (if lane.row.status == InFlight && lane'.row.status == Pending then Some(lane'.row.nextAttemptAt) else None)
  }

  lemma ReportIsWrittenDown(s: Settings, w: World, e: Event)
    requires Validated(s) && WorldInv(s, w) && Enabled(s, w, e) && e.Report?
    ensures e.d in w.lanes && e.d in Apply(s, w, e).lanes
    ensures WrittenDown(w.lanes[e.d], Apply(s, w, e).lanes[e.d], e.n)
  {
    var lane := w.lanes[e.d];
    assert LaneAt(s, w, e.d) && Possible(s, w, e, e.d);
    RecordIsWrittenDown(s, w.now, w.requests[lane.row.requestId], lane, DeedOf(w, e, e.d));
  }

  lemma RecordIsWrittenDown(s: Settings, now: Time, request: Request, lane: Lane, deed: Deed)
    requires Validated(s) && LaneInv(s, now, request, lane) && deed.Record? && Can(s, now, lane, deed)
    ensures WrittenDown(lane, Do(s, now, lane, deed), deed.n)
  {
    assert TokenOk(s, now, request, lane, deed.n - 1);
    if deed.n in lane.journal { assert EntryOk(lane, deed.n); }
    HorizonBounds(s, lane.tokens[deed.n - 1].claim.budgetAttempt, deed.draw);
  }

  lemma ReportShows(s: Settings, now: Time, request: Request, lane: Lane, deed: Deed)
    requires Validated(s) && LaneInv(s, now, request, lane) && deed.Record? && Can(s, now, lane, deed)
    requires if Sender.ErrorKind(deed.response).None? then lane.row.status != Delivered
             else lane.row.status == InFlight && lane.row.lockedBy == Some(lane.tokens[deed.n - 1].worker)
    ensures var row := Do(s, now, lane, deed).row;
            && row.lastOutcome.Some?
            && Verdict(deed.response, row.lastOutcome.value, row.lastErrorKind, row.lastStatusCode)
  {
    assert TokenOk(s, now, request, lane, deed.n - 1);
    HorizonBounds(s, lane.tokens[deed.n - 1].claim.budgetAttempt, deed.draw);
  }

  /** On the wire, the key identifies the (lead, recipient) pair and the pair of key and
      attempt number identifies the attempt, across retries, requeues and crashes. */
  lemma KeyIdentity(s: Settings, t: Time, es: Run, a: Id, m: nat, b: Id, n: nat)
    requires Validated(s) && Legal(s, Initial(t), es)
    requires var w := Exec(s, Initial(t), es);
             a in w.lanes && b in w.lanes && HasToken(w.lanes[a], m) && HasToken(w.lanes[b], n)
    ensures var w := Exec(s, Initial(t), es);
            var ca, cb := w.lanes[a].tokens[m - 1].claim, w.lanes[b].tokens[n - 1].claim;
            var ha, hb := Sender.BuildHeaders(ca), Sender.BuildHeaders(cb);
            && (ha.idempotencyKey == hb.idempotencyKey <==>
                  ca.request.sourceId == cb.request.sourceId
                  && ca.request.idempotencyKey == cb.request.idempotencyKey
                  && ca.url == cb.url)
            && (ha.idempotencyKey == hb.idempotencyKey && ha.attempt == hb.attempt <==> a == b && m == n)
            && (ha.requestId == hb.requestId <==> ca.request.sourceId == cb.request.sourceId
                                                  && ca.request.idempotencyKey == cb.request.idempotencyKey)
            && ha.idempotencyKey == a && ha.attempt == m
            && ha.requestId == w.lanes[a].row.requestId && ha.sourceId == ca.request.sourceId
            && w.lanes[a].row.requestId in w.requests
            && ca.request == w.requests[w.lanes[a].row.requestId] && ca.url == w.lanes[a].row.url
  {
    var w := Exec(s, Initial(t), es);
    RunKeeps(s, Initial(t), es);
    assert LaneAt(s, w, a) && LaneAt(s, w, b);
    assert SameTarget(w.lanes, a, b) <==> a == b;
    assert SameKey(w.requests, w.lanes[a].row.requestId, w.lanes[b].row.requestId)
      <==> w.lanes[a].row.requestId == w.lanes[b].row.requestId;
    assert TokenOk(s, w.now, w.requests[w.lanes[a].row.requestId], w.lanes[a], m - 1);
    assert TokenOk(s, w.now, w.requests[w.lanes[b].row.requestId], w.lanes[b], n - 1);
  }

  /** Attempts are counted twice: `attempts` within the budget and `total_attempts` over the
      whole life. Claim number n carries n, and its budget position counts on from the claim
      before it or starts over at 1. */
  lemma CountersAreConsistent(s: Settings, t: Time, es: Run, d: Id, n: nat)
    requires Validated(s) && Legal(s, Initial(t), es) && d in Exec(s, Initial(t), es).lanes
    requires HasToken(Exec(s, Initial(t), es).lanes[d], n)
    ensures var lane := Exec(s, Initial(t), es).lanes[d];
            && |lane.tokens| == lane.row.totalAttempts >= lane.row.attempts
            && lane.tokens[n - 1].claim.attemptNumber == n
            && 1 <= lane.tokens[n - 1].claim.budgetAttempt <= n
            && (n > 1 && lane.tokens[n - 1].claim.budgetAttempt != 1 ==>
                  lane.tokens[n - 1].claim.budgetAttempt == lane.tokens[n - 2].claim.budgetAttempt + 1)
            && (n in lane.journal ==> lane.journal[n].budgetAttempt == lane.tokens[n - 1].claim.budgetAttempt)
  {
    var w := Exec(s, Initial(t), es);
    RunKeeps(s, Initial(t), es);
    assert LaneAt(s, w, d);
    var lane := w.lanes[d];
    if n in lane.journal { assert EntryOk(lane, n); }
    BudgetBelowNumber(s, w.now, w.requests[lane.row.requestId], lane, n);
  }

  lemma {:induction false} BudgetBelowNumber(s: Settings, now: Time, request: Request, lane: Lane, n: nat)
    requires LaneInv(s, now, request, lane) && HasToken(lane, n)
    ensures lane.tokens[n - 1].claim.attemptNumber == n && 1 <= lane.tokens[n - 1].claim.budgetAttempt <= n
    ensures n > 1 && lane.tokens[n - 1].claim.budgetAttempt != 1 ==>
              lane.tokens[n - 1].claim.budgetAttempt == lane.tokens[n - 2].claim.budgetAttempt + 1
  {
    assert TokenOk(s, now, request, lane, n - 1);
    if n > 1 {
      BudgetBelowNumber(s, now, request, lane, n - 1);
    }
  }

  lemma EmptyBook(t: Time)
    ensures Intake.Refines(Initial(t), map[])
  {
  }

  /** What goes out on the wire is the lead as it was first accepted, to one of the addresses it
      was accepted for or given later, however often the key was repeated since. */
  lemma WhatArrivesWasAccepted(s: Settings, t: Time, es: Run, d: Id, n: nat)
    requires Validated(s) && Legal(s, Initial(t), es) && d in Exec(s, Initial(t), es).lanes
    requires HasToken(Exec(s, Initial(t), es).lanes[d], n)
    ensures var claim := Exec(s, Initial(t), es).lanes[d].tokens[n - 1].claim;
            var body, book := Sender.BuildBody(claim), Intake.WriteAll(map[], es);
            && (body.sourceId, body.idempotencyKey) in book
            && var lead := book[(body.sourceId, body.idempotencyKey)];
            && lead.requestId == body.requestId && lead.payload == body.payload && claim.url in lead.urls
            && body.deliveryId == d && body.attempt == n
            && var w := Exec(s, Initial(t), es);
            && body.requestId in w.requests && body.receivedAt == w.requests[body.requestId].receivedAt
  {
    var w := Exec(s, Initial(t), es);
    RunKeeps(s, Initial(t), es);
    EmptyBook(t);
    Intake.IntakeIsFirstWriteWins(s, Initial(t), es, map[]);
    assert LaneAt(s, w, d);
    assert TokenOk(s, w.now, w.requests[w.lanes[d].row.requestId], w.lanes[d], n - 1);
    assert d in Intake.DeliveriesOf(w.lanes, w.lanes[d].row.requestId);
  }

  /** Whatever happened since the ranking was read - any run at all - a claim based on it hands
      out only rows that are due now and not locked, at most `limit` of them and at most
      `max_claims_per_origin` per origin. */
  lemma StaleClaimIsSafe(s: Settings, w: World, es: Run, e: Event, origin: string)
    requires Validated(s) && WorldInv(s, w) && Legal(s, w, es) && Enabled(s, Exec(s, w, es), e)
    requires e.ClaimBatch? && e.snapshot == Table(w)
    ensures var current := Table(Exec(s, w, es));
            && e.picks <= ClaimQuery.DueIds(current, Exec(s, w, es).now) && e.picks !! e.locked
            && |e.picks| <= Max(e.limit, 0)
            && |ClaimQuery.OfOrigin(current, e.picks, origin)| <= s.maxClaimsPerOrigin
  {
    var w' := Exec(s, w, es);
    forall d | d in w.lanes ensures d in w'.lanes && w'.lanes[d].row.origin == w.lanes[d].row.origin {
      History.HistoryOnlyGrows(s, w, es, d);
    }
    ClaimQuery.StaleRankingIsSafe(s, Table(w'), w'.now, e.limit, e.snapshot, e.window, e.locked, e.picks, origin);
  }
}
