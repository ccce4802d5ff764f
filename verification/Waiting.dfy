// Nobody waits forever: with ties resolved by id, a due row can only be overtaken by rows
// that were already ahead of it, and every claim takes at least one of those.

module Waiting {
  import opened Types
  import opened Config
  import opened Rows
  import opened Lanes
  import opened Protocol
  import opened ClaimQuery
  import ClaimRefinement
  import History

  /** The open rows that stand before d in (claimable_at, id) order. */
  ghost function Ahead(w: World, d: Id): set<Id>
    requires d in w.lanes
  {
    set x | x in w.lanes && Open(w.lanes[x].row) && Before(Protocol.Table(w), x, d)
  }

  /** A deed leaves a row where it is in the queue, takes it out, or puts it behind the clock. */
  lemma DeedNeverPromotes(s: Settings, now: Time, request: Request, lane: Lane, deed: Deed)
    requires Validated(s) && LaneInv(s, now, request, lane) && Can(s, now, lane, deed)
    ensures var row, row' := lane.row, Do(s, now, lane, deed).row;
            row' == row || !Open(row') || row'.claimableAt >= now
  {
    if deed.Record? {
      assert TokenOk(s, now, request, lane, deed.n - 1);
      var t := lane.tokens[deed.n - 1];
      HorizonBounds(s, t.claim.budgetAttempt, deed.draw);
    }
  }

  /** The event takes d out of the wait other than by claiming it: a report that moves its row, or a
      manual retry that puts it back. */
  predicate Disturbs(w: World, e: Event, d: Id) {
    History.ReportMoves(w, e, d) || History.PutsBack(w, e, d)
  }

  ghost predicate Undisturbed(s: Settings, w: World, es: Run, d: Id)
    requires Legal(s, w, es)
    decreases |es|
  {
    es == [] || (!Disturbs(w, es[0], d) && Undisturbed(s, Apply(s, w, es[0]), es[1..], d))
  }

  predicate LeavesAlone(w: World, e: Event, d: Id) {
    !Disturbs(w, e, d) && !History.Claims(e, d)
  }

  lemma AloneDeed(s: Settings, w: World, e: Event, d: Id)
    requires Validated(s) && d in w.lanes && LaneAt(s, w, d) && Enabled(s, w, e) && LeavesAlone(w, e, d)
    requires !(e.Report? && e.d == d) && Can(s, w.now, w.lanes[d], DeedOf(w, e, d))
    ensures Do(s, w.now, w.lanes[d], DeedOf(w, e, d)).row == w.lanes[d].row
    ensures |Do(s, w.now, w.lanes[d], DeedOf(w, e, d)).tokens| == |w.lanes[d].tokens|
  {
  }

  lemma AloneStays(s: Settings, w: World, e: Event, d: Id)
    requires Validated(s) && d in w.lanes && LaneAt(s, w, d) && Enabled(s, w, e) && LeavesAlone(w, e, d)
    ensures d in Apply(s, w, e).lanes && Apply(s, w, e).lanes[d].row == w.lanes[d].row
    ensures |Apply(s, w, e).lanes[d].tokens| == |w.lanes[d].tokens|
  {
    if e.Report? && e.d == d {
      History.IdleReport(s, w, e, d);
    } else {
      EventKeepsLane(s, w, e, d);
      if !(e.Tick? || e.Accept? || e.Attach?) { AloneDeed(s, w, e, d); }
    }
  }

  /** After any event, an open row is either where it was or not before the old clock. */
  lemma RowIsBehind(s: Settings, w: World, e: Event, x: Id)
    requires Validated(s) && WorldInv(s, w) && Enabled(s, w, e) && x in Apply(s, w, e).lanes
    ensures var row' := Apply(s, w, e).lanes[x].row;
            || (x in w.lanes && row' == w.lanes[x].row) || !Open(row') || row'.claimableAt >= w.now
  {
    if x in w.lanes {
      assert LaneAt(s, w, x);
      EventKeepsLane(s, w, e, x);
      if !(e.Tick? || e.Accept? || e.Attach?) {
        DeedNeverPromotes(s, w.now, w.requests[w.lanes[x].row.requestId], w.lanes[x], DeedOf(w, e, x));
      }
    } else {
      InsertFrames(w.lanes, w.now, e.requestId, Dedupe(e.recipients), e.ids);
    }
  }

  /** No accept, report, reclaim or requeue of another row gets ahead of a row that is due. */
  lemma NobodyOvertakes(s: Settings, w: World, e: Event, d: Id)
    requires Validated(s) && WorldInv(s, w) && Enabled(s, w, e)
    requires d in w.lanes && w.lanes[d].row.claimableAt < w.now && LeavesAlone(w, e, d)
    ensures d in Apply(s, w, e).lanes && Ahead(Apply(s, w, e), d) <= Ahead(w, d)
  {
    assert LaneAt(s, w, d);
    AloneStays(s, w, e, d);
    var w' := Apply(s, w, e);
    forall x | x in Ahead(w', d) ensures x in Ahead(w, d) {
      RowIsBehind(s, w, e, x);
    }
  }

  /** An uncontended claim with ties resolved by id. */
  ghost predicate Ordered(s: Settings, w: World, e: Event) {
    e.ClaimBatch? && e.limit > 0 && e.picks == OrderedPicks(s, Protocol.Table(w), w.now, e.limit)
  }

  /** Such a claim takes d itself or a row ahead of it. */
  lemma ClaimTakesTheHead(s: Settings, w: World, e: Event, d: Id) returns (head: Id)
    requires Validated(s) && WorldInv(s, w) && Enabled(s, w, e) && Ordered(s, w, e)
    requires d in w.lanes && Due(w.lanes[d].row, w.now)
    ensures head in e.picks && (head == d || head in Ahead(w, d))
  {
    var ds := Protocol.Table(w);
    var due := DueIds(ds, w.now);
    assert d in due;
    head := FirstExists(ds, due);
    HeadIsPicked(s, ds, w.now, e.limit, head);
  }

  lemma TakenRowIsBehind(s: Settings, w: World, e: Event, x: Id)
    requires Validated(s) && WorldInv(s, w) && Enabled(s, w, e) && e.ClaimBatch? && x in e.picks && x in w.lanes
    ensures x in Apply(s, w, e).lanes
    ensures Apply(s, w, e).lanes[x].row.claimableAt == w.now + s.lease
    ensures |Apply(s, w, e).lanes[x].tokens| == |w.lanes[x].tokens| + 1
  {
    assert LaneAt(s, w, x);
    EventKeepsLane(s, w, e, x);
  }

  lemma HeadLeaves(s: Settings, w: World, e: Event, d: Id, head: Id)
    requires Validated(s) && WorldInv(s, w) && Enabled(s, w, e) && e.ClaimBatch?
    requires d in w.lanes && w.lanes[d].row.claimableAt < w.now && LeavesAlone(w, e, d)
    requires head in e.picks && head in w.lanes
    ensures d in Apply(s, w, e).lanes && head !in Ahead(Apply(s, w, e), d)
  {
    assert LaneAt(s, w, d);
    AloneStays(s, w, e, d);
    TakenRowIsBehind(s, w, e, head);
  }

  lemma AheadShrinks(s: Settings, w: World, e: Event, d: Id)
    requires Validated(s) && WorldInv(s, w) && Enabled(s, w, e) && Ordered(s, w, e)
    requires d in w.lanes && Open(w.lanes[d].row) && w.lanes[d].row.claimableAt < w.now && LeavesAlone(w, e, d)
    ensures d in Apply(s, w, e).lanes && |Ahead(Apply(s, w, e), d)| < |Ahead(w, d)|
  {
    var head := ClaimTakesTheHead(s, w, e, d);
    NobodyOvertakes(s, w, e, d);
    HeadLeaves(s, w, e, d, head);
    StrictlyFewer(Ahead(Apply(s, w, e), d), Ahead(w, d), head);
  }

  lemma StrictlyFewer(a: set<Id>, b: set<Id>, x: Id)
    requires a <= b && x in b && x !in a
    ensures |a| < |b|
  {
    SubsetSize(a, b - {x});
  }

  /** One event of the wait: the row is claimed, or it stays due with nobody new ahead. */
  lemma WaitOneEvent(s: Settings, w: World, e: Event, d: Id)
    requires Validated(s) && WorldInv(s, w) && Enabled(s, w, e)
    requires d in w.lanes && Open(w.lanes[d].row) && w.lanes[d].row.claimableAt < w.now
    requires !Disturbs(w, e, d)
    ensures var w' := Apply(s, w, e);
            && d in w'.lanes
            && if e.ClaimBatch? && d in e.picks then |w'.lanes[d].tokens| == |w.lanes[d].tokens| + 1
               else w'.lanes[d].row == w.lanes[d].row && |w'.lanes[d].tokens| == |w.lanes[d].tokens|
                    && w.now <= w'.now && |Ahead(w', d)| + (if Ordered(s, w, e) then 1 else 0) <= |Ahead(w, d)|
  {
    if e.ClaimBatch? && d in e.picks {
      TakenRowIsBehind(s, w, e, d);
    } else {
      assert LaneAt(s, w, d);
      AloneStays(s, w, e, d);
      NobodyOvertakes(s, w, e, d);
      SubsetSize(Ahead(Apply(s, w, e), d), Ahead(w, d));
      if Ordered(s, w, e) { AheadShrinks(s, w, e, d); }
    }
  }

  ghost function DueNow(w: World): set<Id> {
    DueIds(Protocol.Table(w), w.now)
  }

  /** An ordered claim takes its rows off the due list and leaves the others on it. */
  lemma ClaimConsumes(s: Settings, w: World, e: Event)
    requires Validated(s) && WorldInv(s, w) && Enabled(s, w, e) && e.ClaimBatch? && e.picks <= DueNow(w)
    ensures DueNow(Apply(s, w, e)) == DueNow(w) - e.picks
    ensures forall d :: d in DueNow(Apply(s, w, e)) ==> Protocol.Table(Apply(s, w, e))[d] == Protocol.Table(w)[d]
  {
    var w' := Apply(s, w, e);
    forall d: Id
      ensures d in DueNow(w') <==> d in DueNow(w) - e.picks
      ensures d in DueNow(w') ==> Protocol.Table(w')[d] == Protocol.Table(w)[d]
    {
      if d in w.lanes {
        if d in e.picks { TakenRowIsBehind(s, w, e, d); } else { assert Possible(s, w, e, d); }
      }
    }
  }

  /** How many claims of the run are uncontended and resolve ties by id. */
  ghost function OrderedClaims(s: Settings, w: World, es: Run): nat
    requires Legal(s, w, es)
    decreases |es|
  {
    if es == [] then 0
    else (if Ordered(s, w, es[0]) then 1 else 0) + OrderedClaims(s, Apply(s, w, es[0]), es[1..])
  }

  /** Bounded waiting: a row whose time has passed is claimed within (rows ahead + 1) ordered
      claims, whatever else happens in between - contended claims, new leads, reports on and
      requeues of other rows - unless it is itself requeued or reported on. */
  lemma {:induction false} BoundedWaiting(s: Settings, w: World, es: Run, d: Id)
    requires Validated(s) && WorldInv(s, w) && Legal(s, w, es)
    requires d in w.lanes && Open(w.lanes[d].row) && w.lanes[d].row.claimableAt < w.now
    requires Undisturbed(s, w, es, d)
    requires OrderedClaims(s, w, es) > |Ahead(w, d)|
    ensures d in Exec(s, w, es).lanes && |Exec(s, w, es).lanes[d].tokens| > |w.lanes[d].tokens|
    decreases |es|
  {
    var e, w' := es[0], Apply(s, w, es[0]);
    EventKeeps(s, w, e);
    WaitOneEvent(s, w, e, d);
    if e.ClaimBatch? && d in e.picks {
      History.HistoryOnlyGrows(s, w', es[1..], d);
    } else {
      BoundedWaiting(s, w', es[1..], d);
    }
  }

  // --- the same whatever the ties -----------------------------------------------------------

  /** A claim that meets no locks and ranks the rows as they are. */
  ghost predicate Uncontended(s: Settings, w: World, e: Event) {
    e.ClaimBatch? && e.limit > 0 && e.snapshot == Protocol.Table(w) && e.locked == {}
  }

  /** An uncontended claim whose window cannot be filled by capped rows of the oldest instant;
      which of several equally old rows it takes is up to the database. */
  ghost predicate Unblocked(s: Settings, w: World, e: Event) {
    Uncontended(s, w, e)
    && |ClaimRefinement.CappedTies(s, Protocol.Table(w), w.now)| < e.limit * s.claimScanMultiplier
  }

  /** The open rows other than d that are not due later than d. */
  ghost function NoLater(w: World, d: Id): set<Id>
    requires d in w.lanes
  {
    set x | x in w.lanes && x != d && Open(w.lanes[x].row) && w.lanes[x].row.claimableAt <= w.lanes[d].row.claimableAt
  }

  lemma UnblockedTakesOldest(s: Settings, w: World, e: Event, d: Id) returns (head: Id)
    requires Validated(s) && Enabled(s, w, e) && Unblocked(s, w, e)
    requires d in w.lanes && Due(w.lanes[d].row, w.now)
    ensures head in e.picks && (head == d || head in NoLater(w, d))
  {
    var ds := Protocol.Table(w);
    assert d in DueIds(ds, w.now);
    head := ClaimRefinement.OldestIsPicked(s, ds, w.now, e.limit, e.window, e.picks);
    assert head in w.lanes && Open(w.lanes[head].row);
  }

  lemma OrderedTakesNoLater(s: Settings, w: World, e: Event, d: Id) returns (head: Id)
    requires Validated(s) && WorldInv(s, w) && Enabled(s, w, e) && Ordered(s, w, e)
    requires d in w.lanes && Due(w.lanes[d].row, w.now)
    ensures head in e.picks && (head == d || head in NoLater(w, d))
  {
    head := ClaimTakesTheHead(s, w, e, d);
  }

  /** Claims sure to get on: unblocked ones, and those that resolve ties by id. */
  ghost predicate Progressive(s: Settings, w: World, e: Event) {
    Ordered(s, w, e) || Unblocked(s, w, e)
  }

  /** Such a claim is empty exactly when nothing is due. */
  lemma ProgressiveIsEmpty(s: Settings, w: World, e: Event)
    requires Validated(s) && Enabled(s, w, e) && Progressive(s, w, e)
    ensures e.picks == {} <==> DueNow(w) == {}
  {
    var ds := Protocol.Table(w);
    if Ordered(s, w, e) {
      EmptyOnlyIfNothingDue(s, ds, w.now, e.limit);
    } else if DueNow(w) != {} {
      var x := ClaimRefinement.OldestIsPicked(s, ds, w.now, e.limit, e.window, e.picks);
      assert x in e.picks;
    } else {
      assert e.picks <= DueIds(ds, w.now);
    }
  }

  /** The exact limit: an uncontended claim can come back empty over due rows if and only if the
      oldest instant has a whole window of rows behind their origin's cap. */
  lemma EmptyClaimIsPossible(s: Settings, w: World, worker: WorkerId, limit: int)
    requires Validated(s) && limit > 0 && DueNow(w) != {}
    ensures (exists window :: Enabled(s, w, ClaimBatch(worker, limit, Protocol.Table(w), window, {}, {})))
       <==> |ClaimRefinement.CappedTies(s, Protocol.Table(w), w.now)| >= limit * s.claimScanMultiplier
  {
    var ds, size := Protocol.Table(w), limit * s.claimScanMultiplier;
    ClaimRefinement.StarvationIsPossible(s, ds, w.now, limit);
    if window :| LegalWindow(ds, w.now, size, window) && ClaimRefinement.Starves(s, ds, w.now, limit, window) {
      var e := ClaimBatch(worker, limit, ds, window, {}, {});
      LegalClaimsAreEnabled(s, w, e);
      assert Enabled(s, w, ClaimBatch(worker, limit, Protocol.Table(w), window, {}, {}));
    }
    forall window | Enabled(s, w, ClaimBatch(worker, limit, ds, window, {}, {}))
      ensures LegalWindow(ds, w.now, size, window) && ClaimRefinement.Starves(s, ds, w.now, limit, window)
    {
    }
  }

  lemma NobodySlipsIn(s: Settings, w: World, e: Event, d: Id)
    requires Validated(s) && WorldInv(s, w) && Enabled(s, w, e)
    requires d in w.lanes && w.lanes[d].row.claimableAt < w.now && LeavesAlone(w, e, d)
    ensures d in Apply(s, w, e).lanes && NoLater(Apply(s, w, e), d) <= NoLater(w, d)
  {
    assert LaneAt(s, w, d);
    AloneStays(s, w, e, d);
    var w' := Apply(s, w, e);
    forall x | x in NoLater(w', d) ensures x in NoLater(w, d) {
      RowIsBehind(s, w, e, x);
    }
  }

  /** Every progressive claim that does not take d removes a row that was not due later. */
  lemma NoLaterShrinks(s: Settings, w: World, e: Event, d: Id)
    requires Validated(s) && WorldInv(s, w) && Enabled(s, w, e) && Progressive(s, w, e)
    requires d in w.lanes && Open(w.lanes[d].row) && w.lanes[d].row.claimableAt < w.now && LeavesAlone(w, e, d)
    ensures d in Apply(s, w, e).lanes && |NoLater(Apply(s, w, e), d)| < |NoLater(w, d)|
  {
    var head: Id;
    if Ordered(s, w, e) { head := OrderedTakesNoLater(s, w, e, d); } else { head := UnblockedTakesOldest(s, w, e, d); }
    NobodySlipsIn(s, w, e, d);
    TakenIsLater(s, w, e, d, head);
    StrictlyFewer(NoLater(Apply(s, w, e), d), NoLater(w, d), head);
  }

  lemma TakenIsLater(s: Settings, w: World, e: Event, d: Id, head: Id)
    requires Validated(s) && WorldInv(s, w) && Enabled(s, w, e) && e.ClaimBatch?
    requires d in w.lanes && w.lanes[d].row.claimableAt < w.now && LeavesAlone(w, e, d)
    requires head in e.picks && head in w.lanes
    ensures d in Apply(s, w, e).lanes && head !in NoLater(Apply(s, w, e), d)
  {
    assert LaneAt(s, w, d);
    AloneStays(s, w, e, d);
    TakenRowIsBehind(s, w, e, head);
  }

  ghost function ProgressiveClaims(s: Settings, w: World, es: Run): nat
    requires Legal(s, w, es)
    decreases |es|
  {
    if es == [] then 0
    else (if Progressive(s, w, es[0]) then 1 else 0) + ProgressiveClaims(s, Apply(s, w, es[0]), es[1..])
  }

  lemma WaitWithTies(s: Settings, w: World, e: Event, d: Id)
    requires Validated(s) && WorldInv(s, w) && Enabled(s, w, e)
    requires d in w.lanes && Open(w.lanes[d].row) && w.lanes[d].row.claimableAt < w.now && LeavesAlone(w, e, d)
    ensures var w' := Apply(s, w, e);
            && d in w'.lanes && w'.lanes[d].row == w.lanes[d].row && |w'.lanes[d].tokens| == |w.lanes[d].tokens|
            && w.now <= w'.now
            && |NoLater(w', d)| + (if Progressive(s, w, e) then 1 else 0) <= |NoLater(w, d)|
  {
    assert LaneAt(s, w, d);
    AloneStays(s, w, e, d);
    NobodySlipsIn(s, w, e, d);
    SubsetSize(NoLater(Apply(s, w, e), d), NoLater(w, d));
    if Progressive(s, w, e) { NoLaterShrinks(s, w, e, d); }
  }

  /** Bounded waiting without any tie-break: an open row whose time has passed is claimed within
      (rows due no later + 1) claims that are not blocked by capped ties, whatever else happens in
      between, unless it is itself requeued or reported on. */
  lemma {:induction false} BoundedWaitingAnyTies(s: Settings, w: World, es: Run, d: Id)
    requires Validated(s) && WorldInv(s, w) && Legal(s, w, es)
    requires d in w.lanes && Open(w.lanes[d].row) && w.lanes[d].row.claimableAt < w.now
    requires Undisturbed(s, w, es, d)
    requires ProgressiveClaims(s, w, es) > |NoLater(w, d)|
    ensures d in Exec(s, w, es).lanes && |Exec(s, w, es).lanes[d].tokens| > |w.lanes[d].tokens|
    decreases |es|
  {
    var e, w' := es[0], Apply(s, w, es[0]);
    EventKeeps(s, w, e);
    if e.ClaimBatch? && d in e.picks {
      TakenRowIsBehind(s, w, e, d);
      History.HistoryOnlyGrows(s, w', es[1..], d);
    } else {
      WaitWithTies(s, w, e, d);
      BoundedWaitingAnyTies(s, w', es[1..], d);
    }
  }
}
