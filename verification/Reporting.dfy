// The read side: the status of one lead, the problem list with its pages, the counters.

module Reporting {
  import opened Types
  import opened Config
  import opened Rows
  import opened Lanes
  import opened Protocol
  import opened Bookkeeping
  import ClaimQuery
  import ClaimRefinement
  import History
  import Intake
  import Retry
  import Sender
  import Store

  type Requests = map<Id, Request>

  type Deliveries = map<Id, Delivery>

  // --- the state of one lead ------------------------------------------------------------

  datatype State = NoRecipients | InProgress | AllDelivered | AllFailed | PartiallyDelivered

  function RequestState(statuses: seq<Status>): State {
    if statuses == [] then NoRecipients
    else if exists i :: 0 <= i < |statuses| && statuses[i] in {Pending, InFlight} then InProgress
    else if forall i :: 0 <= i < |statuses| ==> statuses[i] == Delivered then AllDelivered
    else if forall i :: 0 <= i < |statuses| ==> statuses[i] == Failed then AllFailed
    else PartiallyDelivered
  }

  /** The last branch is a mix: something arrived, something was given up, nothing is open. */
  lemma PartialIsMixed(statuses: seq<Status>)
    ensures RequestState(statuses) == PartiallyDelivered
       <==> Delivered in statuses && Failed in statuses && Pending !in statuses && InFlight !in statuses
  {
    if RequestState(statuses) == PartiallyDelivered {
      var i :| 0 <= i < |statuses| && statuses[i] != Delivered;
      var j :| 0 <= j < |statuses| && statuses[j] != Failed;
      assert statuses[i] == Failed && statuses[j] == Delivered;
    }
  }

  // --- status of one lead -----------------------------------------------------------------

  datatype AttemptRow = AttemptRow(deliveryId: Id, number: nat, entry: Entry)

  datatype DeliveryOut = DeliveryOut(
    deliveryId: Id, name: Option<string>, url: string, status: Status, attempts: nat, totalAttempts: nat,
    maxAttempts: int, nextAttemptAt: Option<Time>, lastAttemptAt: Option<Time>, lastOutcome: Option<Outcome>,
    lastErrorKind: Option<string>, lastStatusCode: Option<int>, deliveredAt: Option<Time>,
    failedAt: Option<Time>, log: seq<AttemptRow>)

  datatype RequestStatus = RequestStatus(
    requestId: Id, sourceId: string, idempotencyKey: string, receivedAt: Time, state: State,
    payload: string, recipients: seq<DeliveryOut>)

  /** ORDER BY created_at; the order of URLs created together is left open. */
  ghost predicate SelectsDeliveries(ds: Deliveries, rid: Id, ids: seq<Id>) {
    && ClaimRefinement.Distinct(ids)
    && (forall d :: d in ids <==> d in ds && ds[d].requestId == rid)
    && (forall i, j :: 0 <= i < j < |ids| ==>
          ids[i] in ds && ids[j] in ds && ds[ids[i]].createdAt <= ds[ids[j]].createdAt)
  }

  ghost predicate Precedes(a: AttemptRow, b: AttemptRow) {
    a.deliveryId < b.deliveryId || (a.deliveryId == b.deliveryId && a.number < b.number)
  }

  /** WHERE request_id = $1 ORDER BY delivery_id, attempt_number, on the journal's own column. */
  ghost predicate SelectsAttempts(journal: map<Id, Journal>, rid: Id, rows: seq<AttemptRow>) {
    && (forall x :: x in rows <==>
          && x.deliveryId in journal && x.number in journal[x.deliveryId]
          && journal[x.deliveryId][x.number] == x.entry && x.entry.requestId == rid)
    && (forall i, j :: 0 <= i < j < |rows| ==> Precedes(rows[i], rows[j]))
  }

  /** The rows of one delivery, in the order they were read. */
  function Of(rows: seq<AttemptRow>, d: Id): seq<AttemptRow> {
    if rows == [] then []
    else
      var n := |rows| - 1;
      Of(rows[..n], d) + if rows[n].deliveryId == d then [rows[n]] else []
  }

  /** A complete attempt log: every journal entry of the delivery once, in attempt order. */
  ghost predicate IsLog(log: seq<AttemptRow>, d: Id, entries: Journal) {
    && (forall x :: x in log <==> x.deliveryId == d && x.number in entries && entries[x.number] == x.entry)
    && (forall i, j :: 0 <= i < j < |log| ==> log[i].number < log[j].number)
  }

  lemma {:induction false} OfMembers(rows: seq<AttemptRow>, d: Id, x: AttemptRow)
    ensures x in Of(rows, d) <==> x in rows && x.deliveryId == d
  {
    if rows != [] {
      var n := |rows| - 1;
      OfMembers(rows[..n], d, x);
      assert rows == rows[..n] + [rows[n]];
    }
  }

  lemma {:induction false} OfAscends(rows: seq<AttemptRow>, d: Id)
    requires forall i, j :: 0 <= i < j < |rows| ==> Precedes(rows[i], rows[j])
    ensures forall i, j :: 0 <= i < j < |Of(rows, d)| ==> Of(rows, d)[i].number < Of(rows, d)[j].number
  {
    if rows != [] {
      var n := |rows| - 1;
      var before := Of(rows[..n], d);
      OfAscends(rows[..n], d);
      forall i | 0 <= i < |before| && rows[n].deliveryId == d ensures before[i].number < rows[n].number {
        OfMembers(rows[..n], d, before[i]);
        var k :| 0 <= k < n && rows[k] == before[i];
        assert Precedes(rows[k], rows[n]);
      }
    }
  }

  /** The journal keeps its own copy of the lead's id, so it is read without a join; grouping
      what comes back by delivery still yields each delivery's whole journal. */
  lemma GroupIsLog(s: Settings, w: World, rid: Id, rows: seq<AttemptRow>, d: Id)
    requires WorldInv(s, w) && SelectsAttempts(Store.JournalsOf(w.lanes), rid, rows)
    requires d in w.lanes && w.lanes[d].row.requestId == rid
    ensures IsLog(Of(rows, d), d, w.lanes[d].journal)
  {
    OfAscends(rows, d);
    assert LaneAt(s, w, d);
    forall x: AttemptRow
      ensures x in Of(rows, d)
          <==> x.deliveryId == d && x.number in w.lanes[d].journal && w.lanes[d].journal[x.number] == x.entry
    {
      OfMembers(rows, d, x);
      if x.number in w.lanes[d].journal { assert EntryOk(w.lanes[d], x.number); }
    }
  }

  /** One pass over the attempt rows, appending each to the list of its delivery. */
  method GroupAttempts(rows: seq<AttemptRow>) returns (byDelivery: map<Id, seq<AttemptRow>>)
    ensures forall d :: d in byDelivery <==> Of(rows, d) != []
    ensures forall d :: d in byDelivery ==> byDelivery[d] == Of(rows, d)
  {
    byDelivery := map[];
    for i := 0 to |rows|
      invariant forall d :: d in byDelivery <==> Of(rows[..i], d) != []
      invariant forall d :: d in byDelivery ==> byDelivery[d] == Of(rows[..i], d)
    {
      assert rows[..i + 1][..i] == rows[..i];
      var id := rows[i].deliveryId;
      var log := if id in byDelivery then byDelivery[id] else [];
      byDelivery := byDelivery[id := log + [rows[i]]];
    }
    assert rows[..|rows|] == rows;
  }

  function Describe(s: Settings, id: Id, row: Delivery, log: seq<AttemptRow>): DeliveryOut {
    DeliveryOut(id, row.name, row.url, row.status, row.attempts, row.totalAttempts, s.retryMaxAttempts,
                if Open(row) then Some(row.nextAttemptAt) else None,
                row.lastAttemptAt, row.lastOutcome, row.lastErrorKind, row.lastStatusCode,
                row.deliveredAt, row.failedAt, log)
  }

  /** What a reader of the report may rely on, field by field. */
  ghost predicate Shows(s: Settings, id: Id, row: Delivery, out: DeliveryOut) {
    && out.deliveryId == id && (out.name, out.url) == (row.name, row.url)
    && out.status == row.status && (out.attempts, out.totalAttempts) == (row.attempts, row.totalAttempts)
    && out.maxAttempts == s.retryMaxAttempts
    && out.nextAttemptAt == (if row.status in {Pending, InFlight} then Some(row.nextAttemptAt) else None)
    && (row.status == Pending ==> out.nextAttemptAt == Some(row.claimableAt))
    && (out.lastAttemptAt, out.lastOutcome) == (row.lastAttemptAt, row.lastOutcome)
    && (out.lastErrorKind, out.lastStatusCode) == (row.lastErrorKind, row.lastStatusCode)
    && (out.deliveredAt.Some? <==> out.status == Delivered) && out.deliveredAt == row.deliveredAt
    && (out.failedAt.Some? <==> out.status == Failed) && out.failedAt == row.failedAt
  }

  lemma DescribeShows(s: Settings, w: World, d: Id, log: seq<AttemptRow>)
    requires WorldInv(s, w) && d in w.lanes
    ensures Shows(s, d, w.lanes[d].row, Describe(s, d, w.lanes[d].row, log))
  {
    assert LaneAt(s, w, d);
  }

  function StatusesOf(outs: seq<DeliveryOut>): seq<Status> {
    seq(|outs|, i requires 0 <= i < |outs| => outs[i].status)
  }

  lemma RowIsReported(ds: Deliveries, rid: Id, ids: seq<Id>, d: Id) returns (i: nat)
    requires SelectsDeliveries(ds, rid, ids) && d in ds && ds[d].requestId == rid
    ensures i < |ids| && ids[i] == d
  {
    assert d in ids;
    i :| 0 <= i < |ids| && ids[i] == d;
  }

  lemma ReportedRow(ds: Deliveries, rid: Id, ids: seq<Id>, i: nat)
    requires SelectsDeliveries(ds, rid, ids) && i < |ids|
    ensures ids[i] in ds && ds[ids[i]].requestId == rid
  {
    var d := ids[i];
    assert d in ids;
  }

  /** A status is among those reported exactly if a delivery of the lead has it. */
  lemma ReportedStatus(ds: Deliveries, rid: Id, ids: seq<Id>, outs: seq<DeliveryOut>, status: Status)
    requires SelectsDeliveries(ds, rid, ids) && |outs| == |ids|
    requires forall i :: 0 <= i < |ids| ==> ids[i] in ds && outs[i].status == ds[ids[i]].status
    ensures status in StatusesOf(outs) <==> exists d :: d in ds && ds[d].requestId == rid && ds[d].status == status
  {
    var statuses := StatusesOf(outs);
    if status in statuses {
      var i :| 0 <= i < |statuses| && statuses[i] == status;
      ReportedRow(ds, rid, ids, i);
      assert ds[ids[i]].status == status;
    }
    if d :| d in ds && ds[d].requestId == rid && ds[d].status == status {
      var i := RowIsReported(ds, rid, ids, d);
      assert statuses[i] == status;
    }
  }

  /** The state in terms of the statuses that occur. */
  lemma StateOfStatuses(statuses: seq<Status>)
    ensures var state := RequestState(statuses);
            && (state == NoRecipients <==> statuses == [])
            && (state == InProgress <==> Pending in statuses || InFlight in statuses)
            && (state == AllDelivered <==> statuses != [] && forall x :: x in statuses ==> x == Delivered)
            && (state == AllFailed <==> statuses != [] && forall x :: x in statuses ==> x == Failed)
            && (state == PartiallyDelivered
                <==> Delivered in statuses && Failed in statuses && Pending !in statuses && InFlight !in statuses)
  {
    PartialIsMixed(statuses);
    if statuses != [] { assert statuses[0] in statuses; }
  }

  /** The state a lead is reported in, in terms of its deliveries. */
  ghost predicate StateFits(ds: Deliveries, rid: Id, state: State) {
    && (state == NoRecipients <==> !HasDelivery(ds, rid))
    && (state == InProgress <==> exists d :: d in ds && ds[d].requestId == rid && ds[d].status in {Pending, InFlight})
    && (state == AllDelivered
        <==> HasDelivery(ds, rid) && forall d :: d in ds && ds[d].requestId == rid ==> ds[d].status == Delivered)
    && (state == AllFailed
        <==> HasDelivery(ds, rid) && forall d :: d in ds && ds[d].requestId == rid ==> ds[d].status == Failed)
    && (state == PartiallyDelivered
        <==> && (exists d :: d in ds && ds[d].requestId == rid && ds[d].status == Delivered)
             && (exists d :: d in ds && ds[d].requestId == rid && ds[d].status == Failed)
             && forall d :: d in ds && ds[d].requestId == rid ==> ds[d].status in {Delivered, Failed})
  }

  predicate HasDelivery(ds: Deliveries, rid: Id) {
    exists d :: d in ds && ds[d].requestId == rid
  }

  lemma StatusesOccur(ds: Deliveries, rid: Id, ids: seq<Id>, outs: seq<DeliveryOut>)
    requires SelectsDeliveries(ds, rid, ids) && |outs| == |ids|
    requires forall i :: 0 <= i < |ids| ==> ids[i] in ds && outs[i].status == ds[ids[i]].status
    ensures StatusesOf(outs) == [] <==> !HasDelivery(ds, rid)
    ensures forall d :: d in ds && ds[d].requestId == rid ==> ds[d].status in StatusesOf(outs)
    ensures forall x :: x in StatusesOf(outs) ==> exists d :: d in ds && ds[d].requestId == rid && ds[d].status == x
  {
    var statuses := StatusesOf(outs);
    if statuses != [] { ReportedRow(ds, rid, ids, 0); }
    forall d | d in ds && ds[d].requestId == rid ensures ds[d].status in statuses {
      var i := RowIsReported(ds, rid, ids, d);
      assert statuses[i] == ds[d].status;
    }
    forall x | x in statuses ensures exists d :: d in ds && ds[d].requestId == rid && ds[d].status == x {
      ReportedStatus(ds, rid, ids, outs, x);
    }
  }

  lemma StateOfRows(ds: Deliveries, rid: Id, ids: seq<Id>, outs: seq<DeliveryOut>)
    requires SelectsDeliveries(ds, rid, ids) && |outs| == |ids|
    requires forall i :: 0 <= i < |ids| ==> ids[i] in ds && outs[i].status == ds[ids[i]].status
    ensures StateFits(ds, rid, RequestState(StatusesOf(outs)))
  {
    StatusesOccur(ds, rid, ids, outs);
    AnyStatuses(ds, rid, StatusesOf(outs));
  }

  lemma AnyStatuses(ds: Deliveries, rid: Id, statuses: seq<Status>)
    requires statuses == [] <==> !HasDelivery(ds, rid)
    requires forall d :: d in ds && ds[d].requestId == rid ==> ds[d].status in statuses
    requires forall x :: x in statuses ==> exists d :: d in ds && ds[d].requestId == rid && ds[d].status == x
    ensures StateFits(ds, rid, RequestState(statuses))
  {
    StateOfStatuses(statuses);
  }

  /** What is known of one lead: every delivery of it once, each with its complete log. */
  method GetRequestStatus(db: Store.Database, rid: Id, deliveryRows: seq<Id>, attemptRows: seq<AttemptRow>)
    returns (r: Option<RequestStatus>)
    requires db.Valid()
    requires SelectsDeliveries(db.deliveries, rid, deliveryRows) && SelectsAttempts(db.journal, rid, attemptRows)
    ensures r.None? <==> rid !in db.requests
    ensures r.Some? ==>
              && r.value.requestId == rid && |r.value.recipients| == |deliveryRows|
              && Request(r.value.sourceId, r.value.idempotencyKey, r.value.payload, r.value.receivedAt)
                  == db.requests[rid]
    ensures r.Some? ==> forall i :: 0 <= i < |deliveryRows| ==>
              var id, out := deliveryRows[i], r.value.recipients[i];
              && id in db.deliveries && id in db.journal
              && Shows(db.settings, id, db.deliveries[id], out)
              && IsLog(out.log, id, db.journal[id])
    ensures r.Some? ==> StateFits(db.deliveries, rid, r.value.state)
  {
    if rid !in db.requests {
      return None;
    }
    var byDelivery := GroupAttempts(attemptRows);
    var outs: seq<DeliveryOut> := [];
    for i := 0 to |deliveryRows|
      invariant |outs| == i
      invariant forall j :: 0 <= j < i ==>
                  && deliveryRows[j] in db.deliveries
                  && outs[j] == Describe(db.settings, deliveryRows[j], db.deliveries[deliveryRows[j]],
                                         Of(attemptRows, deliveryRows[j]))
    {
      var id := deliveryRows[i];
      assert id in deliveryRows;
      var log := if id in byDelivery then byDelivery[id] else [];
      outs := outs + [Describe(db.settings, id, db.deliveries[id], log)];
    }
    forall i | 0 <= i < |deliveryRows|
      ensures deliveryRows[i] in db.journal && IsLog(outs[i].log, deliveryRows[i], db.journal[deliveryRows[i]])
      ensures Shows(db.settings, deliveryRows[i], db.deliveries[deliveryRows[i]], outs[i])
    {
      assert deliveryRows[i] in deliveryRows;
      GroupIsLog(db.settings, db.world, rid, attemptRows, deliveryRows[i]);
      DescribeShows(db.settings, db.world, deliveryRows[i], outs[i].log);
    }
    StateOfRows(db.deliveries, rid, deliveryRows, outs);
    var request := db.requests[rid];
    return Some(RequestStatus(rid, request.sourceId, request.idempotencyKey, request.receivedAt,
                              RequestState(StatusesOf(outs)), request.payload, outs));
  }

  // --- problems ----------------------------------------------------------------------------

  datatype Reason = NobodyToDeliverTo | GaveUp | Stalled

  datatype Problem = Problem(reason: Reason, requestId: Id, deliveryId: Option<Id>, troubleSince: Time)

  predicate IsStalled(row: Delivery, cutoff: Time) {
    Open(row) && row.createdAt < cutoff
  }

  predicate Troubled(row: Delivery, cutoff: Time, reason: Reason) {
    match reason
    case NobodyToDeliverTo => false
    case GaveUp => row.status == Failed
    case Stalled => IsStalled(row, cutoff)
  }

  /** Counted without a join: leads with no delivery, or deliveries in trouble. */
  ghost function Counted(requests: Requests, ds: Deliveries, cutoff: Time, reason: Reason): set<Id> {
    if reason == NobodyToDeliverTo then set r | r in requests && !HasDelivery(ds, r)
    else set d | d in ds && Troubled(ds[d], cutoff, reason)
  }

  /** Listed with a join, because a problem is displayed with its lead. */
  ghost function Joined(requests: Requests, ds: Deliveries, cutoff: Time, reason: Reason): set<Id> {
    if reason == NobodyToDeliverTo then set r | r in requests && !HasDelivery(ds, r)
    else set d | d in ds && ds[d].requestId in requests && Troubled(ds[d], cutoff, reason)
  }

  ghost function ProblemOf(requests: Requests, ds: Deliveries, reason: Reason, id: Id): Problem
    requires if reason == NobodyToDeliverTo then id in requests else id in ds
  {
    match reason
    case NobodyToDeliverTo => Problem(reason, id, None, requests[id].receivedAt)
    case GaveUp =>
      var since := match ds[id].failedAt case Some(t) => t case None => ds[id].createdAt;
      Problem(reason, ds[id].requestId, Some(id), since)
    case Stalled => Problem(reason, ds[id].requestId, Some(id), ds[id].createdAt)
  }

  ghost function ProblemsOf(requests: Requests, ds: Deliveries, reason: Reason, ids: set<Id>): set<Problem>
    requires forall id :: id in ids ==> if reason == NobodyToDeliverTo then id in requests else id in ds
  {
    set id | id in ids :: ProblemOf(requests, ds, reason, id)
  }

  ghost function Listed(requests: Requests, ds: Deliveries, cutoff: Time, reason: Reason): set<Problem> {
    ProblemsOf(requests, ds, reason, Joined(requests, ds, cutoff, reason))
  }

  ghost function Problems(requests: Requests, ds: Deliveries, cutoff: Time): set<Problem> {
    Listed(requests, ds, cutoff, NobodyToDeliverTo) + Listed(requests, ds, cutoff, GaveUp)
    + Listed(requests, ds, cutoff, Stalled)
  }

  ghost function WithReason(list: set<Problem>, reason: Option<Reason>): set<Problem> {
    set p | p in list && (reason.Some? ==> p.reason == reason.value)
  }

  ghost function Total(requests: Requests, ds: Deliveries, cutoff: Time, reason: Option<Reason>): nat {
    match reason
    case Some(r) => |Counted(requests, ds, cutoff, r)|
    case None =>
      |Counted(requests, ds, cutoff, NobodyToDeliverTo)| + |Counted(requests, ds, cutoff, GaveUp)|
      + |Counted(requests, ds, cutoff, Stalled)|
  }

  /** The problem list, written out: who is on it, why, and since when. */
  lemma WhatIsListed(s: Settings, w: World, cutoff: Time, p: Problem)
    requires WorldInv(s, w)
    ensures p in Problems(w.requests, Table(w), cutoff)
       <==> || (&& p.reason == NobodyToDeliverTo && p.deliveryId == None
                && p.requestId in w.requests && p.troubleSince == w.requests[p.requestId].receivedAt
                && forall d :: d in w.lanes ==> w.lanes[d].row.requestId != p.requestId)
            || (&& p.deliveryId.Some? && p.deliveryId.value in w.lanes
                && var row := w.lanes[p.deliveryId.value].row;
                && p.requestId == row.requestId
                && (|| (p.reason == GaveUp && row.status == Failed && row.failedAt == Some(p.troubleSince))
                    || (p.reason == Stalled && row.status in {Pending, InFlight} && row.createdAt < cutoff
                        && p.troubleSince == row.createdAt)))
  {
    var requests, ds := w.requests, Table(w);
    if p.deliveryId.Some? && p.deliveryId.value in w.lanes { assert LaneAt(s, w, p.deliveryId.value); }
    ListedOne(requests, ds, cutoff, NobodyToDeliverTo, p);
    ListedOne(requests, ds, cutoff, GaveUp, p);
    ListedOne(requests, ds, cutoff, Stalled, p);
    forall d | d in ds ensures ds[d] == w.lanes[d].row && ds[d].requestId in requests {
      assert LaneAt(s, w, d);
    }
  }

  lemma ListedOne(requests: Requests, ds: Deliveries, cutoff: Time, reason: Reason, p: Problem)
    ensures p in Listed(requests, ds, cutoff, reason)
       <==> var id := if reason == NobodyToDeliverTo then p.requestId
                      else if p.deliveryId.Some? then p.deliveryId.value else 0;
            && id in Joined(requests, ds, cutoff, reason) && p == ProblemOf(requests, ds, reason, id)
  {
  }

  lemma {:induction false} OneProblemEach(requests: Requests, ds: Deliveries, reason: Reason, ids: set<Id>)
    requires forall id :: id in ids ==> if reason == NobodyToDeliverTo then id in requests else id in ds
    ensures |ProblemsOf(requests, ds, reason, ids)| == |ids|
    decreases |ids|
  {
    if ids == {} {
      assert ProblemsOf(requests, ds, reason, ids) == {};
    } else {
      var x := ClaimQuery.AnyOf(ids);
      OneProblemEach(requests, ds, reason, ids - {x});
      assert ProblemsOf(requests, ds, reason, ids)
          == ProblemsOf(requests, ds, reason, ids - {x}) + {ProblemOf(requests, ds, reason, x)};
    }
  }

  /** Joining loses nothing, because every delivery belongs to a stored lead. */
  lemma JoinLosesNothing(s: Settings, w: World, cutoff: Time, reason: Reason)
    requires WorldInv(s, w)
    ensures Joined(w.requests, Table(w), cutoff, reason) == Counted(w.requests, Table(w), cutoff, reason)
  {
    forall d | d in w.lanes ensures Table(w)[d].requestId in w.requests {
      assert LaneAt(s, w, d);
    }
  }

  lemma CategorySize(s: Settings, w: World, cutoff: Time, reason: Reason)
    requires WorldInv(s, w)
    ensures |Listed(w.requests, Table(w), cutoff, reason)| == |Counted(w.requests, Table(w), cutoff, reason)|
    ensures AllOf(Listed(w.requests, Table(w), cutoff, reason), reason)
  {
    JoinLosesNothing(s, w, cutoff, reason);
    OneProblemEach(w.requests, Table(w), reason, Joined(w.requests, Table(w), cutoff, reason));
  }

  ghost predicate AllOf(list: set<Problem>, reason: Reason) {
    forall p :: p in list ==> p.reason == reason
  }

  lemma Categories(a: set<Problem>, b: set<Problem>, c: set<Problem>, reason: Option<Reason>)
    requires AllOf(a, NobodyToDeliverTo) && AllOf(b, GaveUp) && AllOf(c, Stalled)
    ensures |WithReason(a + b + c, reason)| == match reason
                                               case None => |a| + |b| + |c|
                                               case Some(NobodyToDeliverTo) => |a|
                                               case Some(GaveUp) => |b|
                                               case Some(Stalled) => |c|
  {
    match reason
    case None =>
      assert |a + b| == |a| + |b|;
      assert |(a + b) + c| == |a + b| + |c|;
      assert WithReason(a + b + c, reason) == a + b + c;
    case Some(r) =>
      assert WithReason(a + b + c, reason) == match r case NobodyToDeliverTo => a case GaveUp => b case Stalled => c;
  }

  /** The counters, which never touch the leads, agree with the list, which does - in every
      reachable state, per category and in total. */
  lemma CountsMatchTheList(s: Settings, w: World, cutoff: Time, reason: Option<Reason>)
    requires WorldInv(s, w)
    ensures |WithReason(Problems(w.requests, Table(w), cutoff), reason)| == Total(w.requests, Table(w), cutoff, reason)
  {
    var requests, ds := w.requests, Table(w);
    CategorySize(s, w, cutoff, NobodyToDeliverTo);
    CategorySize(s, w, cutoff, GaveUp);
    CategorySize(s, w, cutoff, Stalled);
    Categories(Listed(requests, ds, cutoff, NobodyToDeliverTo), Listed(requests, ds, cutoff, GaveUp),
               Listed(requests, ds, cutoff, Stalled), reason);
  }

  // --- counters and list read by two statements --------------------------------------------

  /** The report settles the row as failed. */
  predicate GivesUp(s: Settings, lane: Lane, e: Event) {
    && e.Report? && HasToken(lane, e.n) && Sender.ErrorKind(e.response).Some?
    && lane.row.status == InFlight && lane.row.lockedBy == Some(lane.tokens[e.n - 1].worker)
    && Retry.IsExhausted(s, lane.tokens[e.n - 1].claim.budgetAttempt)
  }

  /** The report moves the row into a category of trouble, or out of it. */
  predicate ReportTurns(s: Settings, lane: Lane, e: Event, cutoff: Time, reason: Reason) {
    && e.Report?
    && match reason
       case NobodyToDeliverTo => false
       case GaveUp => GivesUp(s, lane, e) || (lane.row.status == Failed && Sender.ErrorKind(e.response).None?)
       case Stalled => IsStalled(lane.row, cutoff) && (GivesUp(s, lane, e) || Sender.ErrorKind(e.response).None?)
  }

  /** The manual retry puts the row back out of failed, or back among those open too long. */
  predicate RetryTurns(w: World, e: Event, d: Id, cutoff: Time, reason: Reason) {
    && History.PutsBack(w, e, d)
    && match reason
       case NobodyToDeliverTo => false
       case GaveUp => w.lanes[d].row.status == Failed
       case Stalled => !Open(w.lanes[d].row) && w.lanes[d].row.createdAt < cutoff
  }

  /** What an event would have to be to move a counter. */
  ghost predicate Moves(s: Settings, w: World, e: Event, cutoff: Time, reason: Reason) {
    if reason == NobodyToDeliverTo then
      || (e.Accept? && !KnownKey(w.requests, e.sourceId, e.key) && e.recipients == [])
      || (e.Attach? && e.requestId in w.requests && e.recipients != [] && !HasDelivery(Table(w), e.requestId))
    else
      || (e.Report? && e.d in w.lanes && ReportTurns(s, w.lanes[e.d], e, cutoff, reason))
      || exists d :: d in w.lanes && RetryTurns(w, e, d, cutoff, reason)
  }

  lemma ReportTurnsLane(s: Settings, now: Time, request: Request, lane: Lane, e: Event, cutoff: Time, reason: Reason)
    requires Validated(s) && LaneInv(s, now, request, lane) && e.Report?
    requires Can(s, now, lane, Record(e.n, e.response, e.draw))
    ensures var row' := Do(s, now, lane, Record(e.n, e.response, e.draw)).row;
            (Troubled(row', cutoff, reason) != Troubled(lane.row, cutoff, reason)
             <==> ReportTurns(s, lane, e, cutoff, reason))
  {
    var deed := Record(e.n, e.response, e.draw);
    DeedSameIdentity(s, now, lane, deed);
    if Sender.ErrorKind(e.response).Some? {
      FailureMoves(s, now, request, lane, deed);
    } else {
      SuccessMoves(s, now, lane, deed);
    }
  }

  lemma ReportTurnsTrouble(s: Settings, w: World, e: Event, cutoff: Time, reason: Reason)
    requires Validated(s) && e.Report? && e.d in w.lanes && LaneAt(s, w, e.d) && Enabled(s, w, e)
    ensures e.d in Apply(s, w, e).lanes
    ensures Troubled(Apply(s, w, e).lanes[e.d].row, cutoff, reason) != Troubled(w.lanes[e.d].row, cutoff, reason)
       <==> ReportTurns(s, w.lanes[e.d], e, cutoff, reason)
  {
    var lane := w.lanes[e.d];
    EventKeepsLane(s, w, e, e.d);
    ReportTurnsLane(s, w.now, w.requests[lane.row.requestId], lane, e, cutoff, reason);
  }

  /** Every other event leaves a delivery in its category, except a retry that turns it. */
  lemma OtherTurns(s: Settings, w: World, e: Event, d: Id, cutoff: Time, reason: Reason)
    requires Validated(s) && d in w.lanes && LaneAt(s, w, d) && Enabled(s, w, e) && !(e.Report? && e.d == d)
    ensures d in Apply(s, w, e).lanes
    ensures Troubled(Apply(s, w, e).lanes[d].row, cutoff, reason) != Troubled(w.lanes[d].row, cutoff, reason)
       <==> RetryTurns(w, e, d, cutoff, reason)
    ensures RetryTurns(w, e, d, cutoff, reason) ==>
              Troubled(Apply(s, w, e).lanes[d].row, cutoff, reason) == (reason == Stalled)
  {
    EventKeepsLane(s, w, e, d);
    if e.ManualRetry? {
      RetryTrouble(s, w, e, d, cutoff, reason);
    }
  }

  lemma RetryTrouble(s: Settings, w: World, e: Event, d: Id, cutoff: Time, reason: Reason)
    requires d in w.lanes && e.ManualRetry? && Can(s, w.now, w.lanes[d], DeedOf(w, e, d))
    ensures var row' := Do(s, w.now, w.lanes[d], DeedOf(w, e, d)).row;
            && (Troubled(row', cutoff, reason) != Troubled(w.lanes[d].row, cutoff, reason)
                <==> RetryTurns(w, e, d, cutoff, reason))
            && (RetryTurns(w, e, d, cutoff, reason) ==> Troubled(row', cutoff, reason) == (reason == Stalled))
  {
  }

  /** A delivery that an event creates is in no trouble yet. */
  lemma NewRowsAreFine(s: Settings, w: World, e: Event, d: Id, cutoff: Time, reason: Reason)
    requires Validated(s) && WorldInv(s, w) && Enabled(s, w, e) && cutoff <= w.now
    requires d in Apply(s, w, e).lanes && d !in w.lanes
    ensures !Troubled(Apply(s, w, e).lanes[d].row, cutoff, reason)
  {
    InsertFrames(w.lanes, w.now, e.requestId, Dedupe(e.recipients), e.ids);
  }

  lemma MembersAfter(s: Settings, w: World, e: Event, cutoff: Time, reason: Reason, d: Id)
    requires Validated(s) && WorldInv(s, w) && Enabled(s, w, e) && cutoff <= w.now && reason != NobodyToDeliverTo
    ensures var w' := Apply(s, w, e);
            var before := Counted(w.requests, Table(w), cutoff, reason);
            var after := Counted(w'.requests, Table(w'), cutoff, reason);
            && ((d in after) != (d in before)
                <==> d in w.lanes && if e.Report? && e.d == d then ReportTurns(s, w.lanes[d], e, cutoff, reason)
                                     else RetryTurns(w, e, d, cutoff, reason))
            && (d in w.lanes && !(e.Report? && e.d == d) && RetryTurns(w, e, d, cutoff, reason) ==>
                  (d in after <==> reason == Stalled))
  {
    if d in w.lanes {
      assert LaneAt(s, w, d);
      if e.Report? && e.d == d {
        ReportTurnsTrouble(s, w, e, cutoff, reason);
      } else {
        OtherTurns(s, w, e, d, cutoff, reason);
      }
    } else if d in Apply(s, w, e).lanes {
      NewRowsAreFine(s, w, e, d, cutoff, reason);
    }
  }

  lemma SameSets<T(!new)>(a: set<T>, b: set<T>)
    requires forall x :: x in a <==> x in b
    ensures |a| == |b|
  {
    assert a == b;
  }

  lemma ProperPart<T(!new)>(a: set<T>, b: set<T>, d: T)
    requires d in b && d !in a && forall x :: x in a ==> x in b
    ensures |a| < |b|
  {
    ClaimQuery.SubsetSize(a, b - {d});
  }

  /** The events that move the counter of failed or stalled deliveries, and no others. */
  lemma DeliveryCounterMoves(s: Settings, w: World, e: Event, cutoff: Time, reason: Reason)
    requires Validated(s) && WorldInv(s, w) && Enabled(s, w, e) && cutoff <= w.now && reason != NobodyToDeliverTo
    ensures var w' := Apply(s, w, e);
            (|Counted(w'.requests, Table(w'), cutoff, reason)| != |Counted(w.requests, Table(w), cutoff, reason)|
             <==> Moves(s, w, e, cutoff, reason))
  {
    var w' := Apply(s, w, e);
    var before, after := Counted(w.requests, Table(w), cutoff, reason), Counted(w'.requests, Table(w'), cutoff, reason);
    forall d: Id
      ensures (d in after) != (d in before)
         <==> d in w.lanes && if e.Report? && e.d == d then ReportTurns(s, w.lanes[d], e, cutoff, reason)
                              else RetryTurns(w, e, d, cutoff, reason)
      ensures d in w.lanes && !(e.Report? && e.d == d) && RetryTurns(w, e, d, cutoff, reason) ==>
                (d in after <==> reason == Stalled)
    {
      MembersAfter(s, w, e, cutoff, reason, d);
    }
    if e.Report? {
      OneMember(before, after, e.d);
    } else if d :| d in w.lanes && RetryTurns(w, e, d, cutoff, reason) {
      if reason == Stalled { ProperPart(before, after, d); } else { ProperPart(after, before, d); }
    } else {
      forall d: Id ensures d in before <==> d in after {
        assert ((d in after) != (d in before)) ==> d in w.lanes && RetryTurns(w, e, d, cutoff, reason);
      }
      SameSets(before, after);
    }
  }

  /** Two sets that agree on everything but d are of one size exactly if they agree on d. */
  lemma OneMember<T(!new)>(a: set<T>, b: set<T>, d: T)
    requires forall x :: x != d ==> (x in a <==> x in b)
    ensures |a| == |b| <==> (d in a <==> d in b)
  {
    if d in a && d !in b {
      ProperPart(b, a, d);
    } else if d in b && d !in a {
      ProperPart(a, b, d);
    } else {
      assert a == b;
    }
  }

  lemma DeliveryMeansAddress(w: World, rid: Id)
    ensures HasDelivery(Table(w), rid) <==> Intake.Addresses(w.lanes, rid) != {}
  {
    if HasDelivery(Table(w), rid) {
      var d :| d in Table(w) && Table(w)[d].requestId == rid;
      assert d in Intake.DeliveriesOf(w.lanes, rid);
      assert w.lanes[d].row.url in Intake.Addresses(w.lanes, rid);
    }
    if Intake.Addresses(w.lanes, rid) != {} {
      var u := ClaimQuery.AnyOf(Intake.Addresses(w.lanes, rid));
      var d :| d in Intake.DeliveriesOf(w.lanes, rid) && w.lanes[d].row.url == u;
      assert Table(w)[d].requestId == rid;
    }
  }

  lemma NoAddresses(rs: seq<Recipient>)
    ensures Intake.UrlsOf(rs) == {} <==> rs == []
  {
    if rs != [] { assert rs[0] in rs && rs[0].url in Intake.UrlsOf(rs); }
  }

  /** Whether a lead has a delivery after an event: only the lead of an intake event can gain one. */
  lemma ServedAfter(s: Settings, w: World, e: Event, rid: Id)
    requires Validated(s) && WorldInv(s, w) && Enabled(s, w, e)
    ensures var w' := Apply(s, w, e);
            var gains := && (e.Accept? || e.Attach?) && e.requestId == rid && e.recipients != []
                         && (e.Accept? ==> !KnownKey(w.requests, e.sourceId, e.key))
                         && (e.Attach? ==> rid in w.requests);
            HasDelivery(Table(w'), rid) <==> HasDelivery(Table(w), rid) || gains
  {
    var w' := Apply(s, w, e);
    DeliveryMeansAddress(w, rid);
    DeliveryMeansAddress(w', rid);
    if e.Accept? || e.Attach? {
      NoAddresses(e.recipients);
      Intake.DedupeIsFirstMention(e.recipients);
      if rid == e.requestId {
        Intake.InsertAddresses(w.lanes, w.now, rid, Dedupe(e.recipients), e.ids);
      } else {
        Intake.InsertElsewhere(w.lanes, w.now, e.requestId, Dedupe(e.recipients), e.ids, rid);
      }
    } else {
      Intake.SameAddresses(s, w, e, rid);
    }
  }

  lemma LeadCounterMoves(s: Settings, w: World, e: Event, cutoff: Time)
    requires Validated(s) && WorldInv(s, w) && Enabled(s, w, e)
    ensures var w', none := Apply(s, w, e), NobodyToDeliverTo;
            (|Counted(w'.requests, Table(w'), cutoff, none)| != |Counted(w.requests, Table(w), cutoff, none)|
             <==> Moves(s, w, e, cutoff, none))
  {
    var w', none := Apply(s, w, e), NobodyToDeliverTo;
    var before, after := Counted(w.requests, Table(w), cutoff, none), Counted(w'.requests, Table(w'), cutoff, none);
    var lead := if e.Accept? || e.Attach? then e.requestId else 0;
    forall r | r != lead || !(e.Accept? || e.Attach?) ensures r in before <==> r in after {
      ServedAfter(s, w, e, r);
    }
    if e.Accept? || e.Attach? {
      ServedAfter(s, w, e, lead);
      if e.Accept? { Intake.NoDeliveriesYet(s, w, lead); DeliveryMeansAddress(w, lead); }
      OneMember(before, after, lead);
    } else {
      SameSets(before, after);
    }
  }

  /** Exactly these events move a counter of the problem report: for leads with nowhere to go, a new
      lead without recipients or the first recipients of such a lead; for failed and stalled
      deliveries, a report that gives up or succeeds, or a manual retry that puts a settled row back. */
  lemma CounterMoves(s: Settings, w: World, e: Event, cutoff: Time, reason: Reason)
    requires Validated(s) && WorldInv(s, w) && Enabled(s, w, e) && cutoff <= w.now
    ensures var w' := Apply(s, w, e);
            (|Counted(w'.requests, Table(w'), cutoff, reason)| != |Counted(w.requests, Table(w), cutoff, reason)|
             <==> Moves(s, w, e, cutoff, reason))
  {
    if reason == NobodyToDeliverTo {
      LeadCounterMoves(s, w, e, cutoff);
    } else {
      DeliveryCounterMoves(s, w, e, cutoff, reason);
    }
  }

  /** No event of the run moves the counter. */
  ghost predicate Still(s: Settings, w: World, es: Run, cutoff: Time, reason: Reason)
    requires Legal(s, w, es)
    decreases |es|
  {
    es == [] || (!Moves(s, w, es[0], cutoff, reason) && Still(s, Apply(s, w, es[0]), es[1..], cutoff, reason))
  }

  lemma {:induction false} StillCounts(s: Settings, w: World, es: Run, cutoff: Time, reason: Reason)
    requires Validated(s) && WorldInv(s, w) && Legal(s, w, es) && cutoff <= w.now && Still(s, w, es, cutoff, reason)
    ensures var w' := Exec(s, w, es);
            |Counted(w'.requests, Table(w'), cutoff, reason)| == |Counted(w.requests, Table(w), cutoff, reason)|
    decreases |es|
  {
    if es != [] {
      CounterMoves(s, w, es[0], cutoff, reason);
      EventKeeps(s, w, es[0]);
      StillCounts(s, Apply(s, w, es[0]), es[1..], cutoff, reason);
    }
  }

  /** The counters and the list are read by two statements, each from its own snapshot, under one
      clock value. They still agree on a category if no event in between moves its counter. */
  lemma CountsMatchTheNextSnapshot(s: Settings, w: World, es: Run, cutoff: Time, reason: Reason)
    requires Validated(s) && WorldInv(s, w) && Legal(s, w, es) && cutoff <= w.now && Still(s, w, es, cutoff, reason)
    ensures var w' := Exec(s, w, es);
            |WithReason(Problems(w'.requests, Table(w'), cutoff), Some(reason))|
            == Total(w.requests, Table(w), cutoff, Some(reason))
  {
    RunKeeps(s, w, es);
    CountsMatchTheList(s, Exec(s, w, es), cutoff, Some(reason));
    StillCounts(s, w, es, cutoff, reason);
  }

  /** With one event in between they agree exactly if it is none of those. */
  lemma CountsAcrossOneEvent(s: Settings, w: World, e: Event, cutoff: Time, reason: Reason)
    requires Validated(s) && WorldInv(s, w) && Enabled(s, w, e) && cutoff <= w.now
    ensures var w' := Apply(s, w, e);
            (|WithReason(Problems(w'.requests, Table(w'), cutoff), Some(reason))|
             == Total(w.requests, Table(w), cutoff, Some(reason))
             <==> !Moves(s, w, e, cutoff, reason))
  {
    EventKeeps(s, w, e);
    CountsMatchTheList(s, Apply(s, w, e), cutoff, Some(reason));
    CounterMoves(s, w, e, cutoff, reason);
  }

  /** For one, a lead without recipients that is accepted between the two statements is on the list and
      not in the counts. */
  lemma ListedButNotCounted(s: Settings, t: Time, cutoff: Time)
    requires Validated(s)
    ensures var e := Accept("source", "key", "{}", [], 7, []);
            && Enabled(s, Initial(t), e)
            && var w, w' := Initial(t), Apply(s, Initial(t), e);
            && Total(w.requests, Table(w), cutoff, Some(NobodyToDeliverTo)) == 0
            && |WithReason(Problems(w'.requests, Table(w'), cutoff), Some(NobodyToDeliverTo))| == 1
  {
    var w, e := Initial(t), Accept("source", "key", "{}", [], 7, []);
    assert Enabled(s, w, e) && !KnownKey(w.requests, "source", "key");
    var w' := Apply(s, w, e);
    EventKeeps(s, w, e);
    CountsMatchTheList(s, w', cutoff, Some(NobodyToDeliverTo));
    assert Counted(w.requests, Table(w), cutoff, NobodyToDeliverTo) == {};
    assert w'.requests.Keys == {7} && w'.lanes == map[];
    assert Counted(w'.requests, Table(w'), cutoff, NobodyToDeliverTo) == {7};
  }

  lemma WhenListed(requests: Requests, ds: Deliveries, cutoff: Time, rid: Id)
    requires rid in requests
    ensures (exists p :: p in Problems(requests, ds, cutoff) && p.requestId == rid)
       <==> !HasDelivery(ds, rid)
            || exists d :: d in ds && ds[d].requestId == rid && (ds[d].status == Failed || IsStalled(ds[d], cutoff))
  {
    if !HasDelivery(ds, rid) {
      assert rid in Joined(requests, ds, cutoff, NobodyToDeliverTo);
      assert ProblemOf(requests, ds, NobodyToDeliverTo, rid) in Problems(requests, ds, cutoff);
    }
    forall d | d in ds && ds[d].requestId == rid && (ds[d].status == Failed || IsStalled(ds[d], cutoff))
      ensures exists p :: p in Problems(requests, ds, cutoff) && p.requestId == rid
    {
      var reason := if ds[d].status == Failed then GaveUp else Stalled;
      assert d in Joined(requests, ds, cutoff, reason);
      assert ProblemOf(requests, ds, reason, d) in Problems(requests, ds, cutoff);
    }
  }

  /** Nothing is lost silently: past the cutoff, a lead is missing from the list exactly when
      all of it has arrived. */
  lemma AbsentMeansDelivered(requests: Requests, ds: Deliveries, cutoff: Time, rid: Id, ids: seq<Id>,
                             outs: seq<DeliveryOut>)
    requires rid in requests && SelectsDeliveries(ds, rid, ids) && |outs| == |ids|
    requires forall i :: 0 <= i < |ids| ==> ids[i] in ds && outs[i].status == ds[ids[i]].status
    requires forall d :: d in ds && ds[d].requestId == rid ==> ds[d].createdAt < cutoff
    ensures (forall p :: p in Problems(requests, ds, cutoff) ==> p.requestId != rid)
       <==> RequestState(StatusesOf(outs)) == AllDelivered
  {
    WhenListed(requests, ds, cutoff, rid);
    StateOfRows(ds, rid, ids, outs);
  }

  // --- pages ---------------------------------------------------------------------------------

  ghost predicate KeyLess(x: Problem, y: Problem) {
    x.troubleSince < y.troubleSince || (x.troubleSince == y.troubleSince && x.requestId < y.requestId)
  }

  ghost predicate KeyTie(x: Problem, y: Problem) {
    x.troubleSince == y.troubleSince && x.requestId == y.requestId
  }

  /** An order in which the database may return the list: ORDER BY trouble_since, request_id. */
  ghost predicate Listing(list: set<Problem>, order: seq<Problem>) {
    && (forall p :: p in order <==> p in list)
    && (forall i, j :: 0 <= i < j < |order| ==> order[i] != order[j])
    && (forall i, j :: 0 <= i < j < |order| ==> !KeyLess(order[j], order[i]))
  }

  /** Oldest trouble first, and leads of one instant by their id. */
  lemma OldestFirst(list: set<Problem>, order: seq<Problem>, i: nat, j: nat)
    requires Listing(list, order) && i < j < |order|
    ensures order[i].troubleSince <= order[j].troubleSince
    ensures order[i].troubleSince == order[j].troubleSince ==> order[i].requestId <= order[j].requestId
  {
    assert !KeyLess(order[j], order[i]);
  }

  /** LIMIT and OFFSET. */
  function Page(order: seq<Problem>, limit: nat, offset: nat): seq<Problem> {
    order[Min(offset, |order|)..Min(offset + limit, |order|)]
  }

  /** Consecutive pages of `limit`, each read from the order its own query produced. */
  function Pages(orders: seq<seq<Problem>>, limit: nat): seq<Problem> {
    if orders == [] then []
    else
      var m := |orders| - 1;
      Pages(orders[..m], limit) + Page(orders[m], limit, m * limit)
  }

  lemma NextOffset(m: nat, limit: nat)
    ensures m * limit >= 0 && (m + 1) * limit == m * limit + limit
  {
  }

  lemma NextPage(order: seq<Problem>, limit: nat, from: nat)
    ensures order[..Min(from, |order|)] + Page(order, limit, from) == order[..Min(from + limit, |order|)]
  {
  }

  lemma {:induction false} PagesOfOneOrder(orders: seq<seq<Problem>>, limit: nat, order: seq<Problem>)
    requires forall i :: 0 <= i < |orders| ==> orders[i] == order
    ensures |orders| * limit >= 0 && Pages(orders, limit) == order[..Min(|orders| * limit, |order|)]
  {
    if orders == [] {
      assert Min(|orders| * limit, |order|) == 0;
    } else {
      var m := |orders| - 1;
      PagesOfOneOrder(orders[..m], limit, order);
      NextOffset(m, limit);
      NextPage(order, limit, m * limit);
    }
  }

  ghost predicate TieFree(list: set<Problem>) {
    forall x, y :: x in list && y in list && x != y ==> !KeyTie(x, y)
  }

  lemma WithoutTail(list: set<Problem>, order: seq<Problem>)
    requires Listing(list, order) && order != []
    ensures Listing(list - {order[|order| - 1]}, order[..|order| - 1])
  {
    var n := |order| - 1;
    assert order == order[..n] + [order[n]];
  }

  lemma EmptyListing(list: set<Problem>, order: seq<Problem>)
    requires Listing(list, order)
    ensures order == [] <==> list == {}
  {
    if order != [] { assert order[0] in list; }
  }

  /** Without ties the order is forced. */
  lemma {:induction false} OnlyOneListing(list: set<Problem>, a: seq<Problem>, b: seq<Problem>)
    requires TieFree(list) && Listing(list, a) && Listing(list, b)
    ensures a == b
    decreases |a|
  {
    EmptyListing(list, a);
    EmptyListing(list, b);
    if a != [] {
      var n := |a| - 1;
      assert a[n] in list && a[n] in b;
      var m := |b| - 1;
      assert b[m] in list && b[m] in a;
      assert a[n] == b[m];
      WithoutTail(list, a);
      WithoutTail(list, b);
      OnlyOneListing(list - {a[n]}, a[..n], b[..m]);
      assert a == a[..n] + [a[n]] && b == b[..m] + [b[m]];
    }
  }

  /** Without ties, consecutive pages of one snapshot rebuild the list, in order and without
      repetition, even though every page is a query of its own. */
  lemma PagesRebuildTheList(list: set<Problem>, orders: seq<seq<Problem>>, limit: nat, order: seq<Problem>)
    requires TieFree(list) && Listing(list, order)
    requires forall i :: 0 <= i < |orders| ==> Listing(list, orders[i])
    ensures |orders| * limit >= 0 && Pages(orders, limit) == order[..Min(|orders| * limit, |order|)]
  {
    forall i | 0 <= i < |orders| ensures orders[i] == order {
      OnlyOneListing(list, orders[i], order);
    }
    PagesOfOneOrder(orders, limit, order);
  }

  /** After a first page read from `a`, a second query may put x on neither page. */
  ghost predicate Skips(list: set<Problem>, a: seq<Problem>, k: nat, b: seq<Problem>, x: Problem)
    requires k <= |a| && |a| == |b|
  {
    Listing(list, b) && x in list && x !in a[..k] && x !in b[k..]
  }

  /** Two rows with equal keys next to each other may come back the other way round. */
  lemma SwapIsListing(list: set<Problem>, a: seq<Problem>, k: nat)
    requires Listing(list, a) && 0 < k < |a| && KeyTie(a[k - 1], a[k])
    ensures Listing(list, a[k - 1 := a[k]][k := a[k - 1]])
  {
    var b := a[k - 1 := a[k]][k := a[k - 1]];
    forall p ensures p in b <==> p in list {
      if p in a {
        var i :| 0 <= i < |a| && a[i] == p;
        assert b[if i == k then k - 1 else if i == k - 1 then k else i] == p;
      }
    }
  }

  lemma {:induction false} ElementsOfPage(s: seq<Problem>) returns (elements: set<Problem>)
    requires forall i, j :: 0 <= i < j < |s| ==> s[i] != s[j]
    ensures |elements| == |s| && forall p :: p in elements <==> p in s
  {
    elements := {};
    if s != [] {
      var n := |s| - 1;
      var rest := ElementsOfPage(s[..n]);
      elements := rest + {s[n]};
      assert s == s[..n] + [s[n]];
    }
  }

  lemma MissesOne(left: set<Problem>, right: set<Problem>, x: Problem)
    requires |left| == |right| && x in right && x !in left
    ensures left - right != {}
  {
    if left <= right {
      ClaimQuery.SubsetSize(left, right - {x});
    } else {
      var y :| y in left && y !in right;
      assert y in left - right;
    }
  }

  /** Two first pages of the same length: what one has too much the other has too little. */
  lemma Exchange(a: seq<Problem>, b: seq<Problem>, k: nat, x: Problem) returns (y: Problem)
    requires k <= |a| && k <= |b|
    requires forall i, j :: 0 <= i < j < |a| ==> a[i] != a[j]
    requires forall i, j :: 0 <= i < j < |b| ==> b[i] != b[j]
    requires x in b[..k] && x !in a[..k]
    ensures y in a[..k] && y !in b[..k]
  {
    var left := ElementsOfPage(a[..k]);
    var right := ElementsOfPage(b[..k]);
    MissesOne(left, right, x);
    y := ClaimQuery.AnyOf(left - right);
  }

  lemma LostMeansTie(list: set<Problem>, a: seq<Problem>, k: nat, b: seq<Problem>, x: Problem)
    requires Listing(list, a) && 0 < k < |a| && |b| == |a| && Skips(list, a, k, b, x)
    ensures KeyTie(a[k - 1], a[k])
  {
    assert x in a && x in b && a == a[..k] + a[k..] && b == b[..k] + b[k..];
    var y := Exchange(a, b, k, x);
    var i :| 0 <= i < k && a[i] == y;
    var j :| k <= j < |a| && a[j] == x;
    assert y in list && y in b;
    var m :| k <= m < |b| && b[m] == y;
    var n :| 0 <= n < k && b[n] == x;
    assert !KeyLess(a[j], a[i]) && !KeyLess(b[m], b[n]);
    assert i < k - 1 ==> !KeyLess(a[k - 1], a[i]);
    assert k < j ==> !KeyLess(a[j], a[k]);
    assert !KeyLess(a[k], a[k - 1]);
  }

  // --- a whole sequence of pages -------------------------------------------------------------

  /** One query per page, each free to order ties its own way. */
  ghost predicate Queries(list: set<Problem>, orders: seq<seq<Problem>>) {
    forall p :: 0 <= p < |orders| ==> Listing(list, orders[p])
  }

  ghost predicate Complete(list: set<Problem>, shown: seq<Problem>) {
    forall x :: x in list ==> x in shown
  }

  lemma NextCut(p: nat, m: nat, limit: nat)
    requires p < m
    ensures 0 <= p * limit && p * limit + limit == (p + 1) * limit <= m * limit
  {
    assert m * limit - (p + 1) * limit == (m - p - 1) * limit;
  }

  lemma {:induction false} OnSomePage(orders: seq<seq<Problem>>, limit: nat, x: Problem)
    ensures x in Pages(orders, limit)
       <==> exists p :: 0 <= p < |orders| && p * limit >= 0 && x in Page(orders[p], limit, p * limit)
  {
    if orders != [] {
      var m := |orders| - 1;
      OnSomePage(orders[..m], limit, x);
      forall p | 0 <= p < m ensures orders[..m][p] == orders[p] {
      }
      NextOffset(m, limit);
    }
  }

  lemma InPage(order: seq<Problem>, limit: nat, offset: nat, x: Problem)
    ensures x in Page(order, limit, offset)
       <==> exists i :: offset <= i < offset + limit && i < |order| && order[i] == x
  {
    var page := Page(order, limit, offset);
    if x in page {
      var j :| 0 <= j < |page| && page[j] == x;
      assert order[offset + j] == x;
    }
    if i :| offset <= i < offset + limit && i < |order| && order[i] == x {
      assert page[i - offset] == x;
    }
  }

  /** Listings of one list have the same length. */
  lemma SameLength(list: set<Problem>, a: seq<Problem>, b: seq<Problem>)
    requires Listing(list, a) && Listing(list, b)
    ensures |a| == |b|
  {
    var left := ElementsOfPage(a);
    var right := ElementsOfPage(b);
    assert left == right;
  }

  /** Where no tie straddles the cut, every query cuts the same rows off. */
  lemma SameCut(list: set<Problem>, a: seq<Problem>, b: seq<Problem>, k: nat, x: Problem)
    requires Listing(list, a) && Listing(list, b) && |a| == |b|
    requires 0 < k < |a| ==> !KeyTie(a[k - 1], a[k])
    ensures x in list ==> (x in a[..Min(k, |a|)] <==> x in b[..Min(k, |a|)])
  {
    if 0 < k < |a| && x in list {
      if x !in a[..k] && x in b[..k] {
        NotInRest(b, k, x);
        assert Skips(list, a, k, b, x);
        LostMeansTie(list, a, k, b, x);
      }
      if x in a[..k] && x !in b[..k] {
        var y := Exchange(b, a, k, x);
        NotInRest(b, k, y);
        assert y in b && y in list && Skips(list, a, k, b, y);
        LostMeansTie(list, a, k, b, y);
      }
    } else if k >= |a| {
      assert a[..Min(k, |a|)] == a && b[..Min(k, |a|)] == b;
    }
  }

  lemma NotInRest(b: seq<Problem>, k: nat, x: Problem)
    requires forall i, j :: 0 <= i < j < |b| ==> b[i] != b[j]
    requires k <= |b| && x in b[..k]
    ensures x !in b[k..]
  {
    var i :| 0 <= i < k && b[i] == x;
    forall j | k <= j < |b| ensures b[j] != x {
      assert b[i] != b[j];
    }
  }

  lemma CutIndex(b: seq<Problem>, k: nat, j: nat)
    requires k <= |b| && j < |b|
    ensures j < k ==> b[j] in b[..k]
  {
    if j < k { assert b[..k][j] == b[j]; }
  }

  ghost predicate CleanCut(a: seq<Problem>, k: int) {
    0 < k < |a| ==> !KeyTie(a[k - 1], a[k])
  }

  /** No page boundary runs through a tie. */
  ghost predicate CleanCuts(a: seq<Problem>, limit: nat, pages: nat) {
    forall p :: 0 <= p <= pages ==> CleanCut(a, p * limit)
  }

  lemma PageOfIndex(i: nat, limit: nat, m: nat) returns (p: nat)
    requires limit >= 1 && i < m * limit
    ensures p < m && 0 <= p * limit <= i < p * limit + limit
  {
    p := i / limit;
    assert i == p * limit + i % limit;
    if p >= m {
      MoreIsMore(m, p, limit);
    }
  }

  lemma MoreIsMore(m: nat, p: nat, limit: nat)
    requires m <= p
    ensures m * limit <= p * limit
  {
    assert p * limit - m * limit == (p - m) * limit;
  }

  lemma CleanCutsShowAll(list: set<Problem>, a: seq<Problem>, orders: seq<seq<Problem>>, limit: nat, x: Problem)
    requires Listing(list, a) && limit >= 1 && |a| <= |orders| * limit
    requires CleanCuts(a, limit, |orders|) && Queries(list, orders) && x in list
    ensures x in Pages(orders, limit)
  {
    var i :| 0 <= i < |a| && a[i] == x;
    var p := PageOfIndex(i, limit, |orders|);
    var k, b := p * limit, orders[p];
    NextCut(p, |orders|, limit);
    SameLength(list, a, b);
    assert CleanCut(a, p * limit) && CleanCut(a, (p + 1) * limit);
    SameCut(list, a, b, k, x);
    SameCut(list, a, b, k + limit, x);
    assert x in a[..Min(k + limit, |a|)] by {
      assert a[..Min(k + limit, |a|)][i] == x;
    }
    assert x !in a[..Min(k, |a|)] by {
      assert forall j :: 0 <= j < i ==> a[j] != a[i];
    }
    var j :| 0 <= j < Min(k + limit, |a|) && b[j] == x;
    CutIndex(b, Min(k, |a|), j);
    InPage(b, limit, k, x);
    OnSomePage(orders, limit, x);
  }

  /** All pages from one order, except that the page behind the boundary comes from another. */
  function OneOff(a: seq<Problem>, b: seq<Problem>, p: nat, m: nat): seq<seq<Problem>> {
    seq(m, q requires 0 <= q => if q == p then b else a)
  }

  lemma TiedCutLoses(list: set<Problem>, a: seq<Problem>, limit: nat, p: nat, m: nat)
    returns (orders: seq<seq<Problem>>)
    requires Listing(list, a) && limit >= 1 && p <= m && |a| <= m * limit
    requires 0 < p * limit < |a| && KeyTie(a[p * limit - 1], a[p * limit])
    ensures |orders| == m && Queries(list, orders) && !Complete(list, Pages(orders, limit))
  {
    var k := p * limit;
    var b := a[k - 1 := a[k]][k := a[k - 1]];
    SwapIsListing(list, a, k);
    orders := OneOff(a, b, p, m);
    var x := a[k];
    forall q: nat | q < m ensures q * limit >= 0 && x !in Page(orders[q], limit, q * limit) {
      NextCut(q, m, limit);
      NotOnPage(list, a, b, limit, p, q, x);
    }
    OnSomePage(orders, limit, x);
    assert x in list;
  }

  lemma NotOnPage(list: set<Problem>, a: seq<Problem>, b: seq<Problem>, limit: nat, p: nat, q: nat, x: Problem)
    requires Listing(list, a) && Listing(list, b) && |a| == |b|
    requires 0 < p * limit < |a| && q * limit >= 0 && x == a[p * limit] == b[p * limit - 1]
    ensures x !in Page(if q == p then b else a, limit, q * limit)
  {
    var k := p * limit;
    InPage(if q == p then b else a, limit, q * limit, x);
    if q == p {
      forall i | k <= i < |b| ensures b[i] != x {
        assert b[k - 1] != b[i];
      }
    } else {
      if q < p { NextCut(q, p, limit); } else { NextCut(p, q, limit); }
      forall i | 0 <= i < |a| && i != k ensures a[i] != x {
        if i < k { assert a[i] != a[k]; } else { assert a[k] != a[i]; }
      }
    }
  }

  /** What a client that pages through the whole list gets. For pages of any size, enough of them,
      and any order among ties that each page's query may choose: no problem is ever missed if and
      only if no page boundary runs between two rows with equal keys. Ties inside a page are
      harmless. */
  lemma PagingIsComplete(list: set<Problem>, a: seq<Problem>, limit: nat, m: nat)
    requires Listing(list, a) && limit >= 1 && |a| <= m * limit
    ensures (forall orders :: |orders| == m && Queries(list, orders) ==> Complete(list, Pages(orders, limit)))
       <==> CleanCuts(a, limit, m)
  {
    if CleanCuts(a, limit, m) {
      forall orders, x | |orders| == m && Queries(list, orders) && x in list ensures x in Pages(orders, limit) {
        CleanCutsShowAll(list, a, orders, limit, x);
      }
    } else {
      var p: nat :| p <= m && !CleanCut(a, p * limit);
      var orders := TiedCutLoses(list, a, limit, p, m);
      assert |orders| == m && Queries(list, orders) && !Complete(list, Pages(orders, limit));
    }
  }

  /** Pages always add up to as many rows as there are problems, so where one is missed another is
      shown twice. */
  lemma {:induction false} PagesAddUp(list: set<Problem>, a: seq<Problem>, orders: seq<seq<Problem>>, limit: nat)
    requires Listing(list, a) && Queries(list, orders)
    ensures |orders| * limit >= 0 && |Pages(orders, limit)| == Min(|orders| * limit, |a|)
  {
    if orders != [] {
      var m := |orders| - 1;
      PagesAddUp(list, a, orders[..m], limit);
      SameLength(list, a, orders[m]);
      NextOffset(m, limit);
    }
  }

  lemma BornTogether(s: Settings, w: World, e: Event, a: Id, b: Id)
    requires WorldInv(s, w) && Enabled(s, w, e) && (e.Accept? || e.Attach?)
    requires a in Apply(s, w, e).lanes && b in Apply(s, w, e).lanes && a !in w.lanes && b !in w.lanes
    ensures var lanes := Apply(s, w, e).lanes;
            lanes[a].row.createdAt == lanes[b].row.createdAt && lanes[a].row.requestId == lanes[b].row.requestId
  {
    InsertFrames(w.lanes, w.now, e.requestId, Dedupe(e.recipients), e.ids);
  }

  /** Such ties are the ordinary case. The recipients of one accept or attach are created at one
      instant; in every later state in which two of them are stalled, both are on the list, as two
      problems with equal keys. */
  lemma SiblingsTie(s: Settings, w: World, e: Event, es: Run, a: Id, b: Id, cutoff: Time)
    requires Validated(s) && WorldInv(s, w) && Enabled(s, w, e) && (e.Accept? || e.Attach?) && a != b
    requires a in Apply(s, w, e).lanes && b in Apply(s, w, e).lanes && a !in w.lanes && b !in w.lanes
    requires Legal(s, Apply(s, w, e), es)
    requires var w' := Exec(s, Apply(s, w, e), es);
             && (a in w'.lanes ==> IsStalled(w'.lanes[a].row, cutoff))
             && (b in w'.lanes ==> IsStalled(w'.lanes[b].row, cutoff))
    ensures var w' := Exec(s, Apply(s, w, e), es);
            && a in w'.lanes && b in w'.lanes
            && var x, y := ProblemOf(w'.requests, Table(w'), Stalled, a), ProblemOf(w'.requests, Table(w'), Stalled, b);
            && x != y && KeyTie(x, y)
            && x in Problems(w'.requests, Table(w'), cutoff) && y in Problems(w'.requests, Table(w'), cutoff)
  {
    var w1 := Apply(s, w, e);
    var w' := Exec(s, w1, es);
    EventKeeps(s, w, e);
    RunKeeps(s, w1, es);
    BornTogether(s, w, e, a, b);
    History.HistoryOnlyGrows(s, w1, es, a);
    History.HistoryOnlyGrows(s, w1, es, b);
    StalledIsListed(s, w', a, cutoff);
    StalledIsListed(s, w', b, cutoff);
  }

  lemma StalledIsListed(s: Settings, w: World, d: Id, cutoff: Time)
    requires WorldInv(s, w) && d in w.lanes && IsStalled(w.lanes[d].row, cutoff)
    ensures ProblemOf(w.requests, Table(w), Stalled, d) in Problems(w.requests, Table(w), cutoff)
    ensures ProblemOf(w.requests, Table(w), Stalled, d)
         == Problem(Stalled, w.lanes[d].row.requestId, Some(d), w.lanes[d].row.createdAt)
  {
    assert LaneAt(s, w, d);
    assert d in Joined(w.requests, Table(w), cutoff, Stalled);
  }

  // --- counters --------------------------------------------------------------------------------

  datatype Stats = Stats(accepted: nat, withoutRecipients: nat, total: nat, delivered: nat, queued: nat,
                         failed: nat, attempts: nat, attemptsFailed: nat)

  predicate Within(t: Time, from: Time, to: Time) {
    from <= t < to
  }

  ghost function Leads(requests: Requests, from: Time, to: Time): set<Id> {
    set r | r in requests && Within(requests[r].receivedAt, from, to)
  }

  datatype Column = Every | DeliveredOnes | QueuedOnes | FailedOnes

  predicate InColumn(status: Status, column: Column) {
    match column
    case Every => true
    case DeliveredOnes => status == Delivered
    case QueuedOnes => status == Pending || status == InFlight
    case FailedOnes => status == Failed
  }

  /** Deliveries of the leads accepted in the period, split by state. */
  ghost function Sent(requests: Requests, ds: Deliveries, from: Time, to: Time, column: Column): set<Id> {
    set d | d in ds && ds[d].requestId in requests && Within(requests[ds[d].requestId].receivedAt, from, to)
            && InColumn(ds[d].status, column)
  }

  ghost function Unserved(ds: Deliveries, leads: set<Id>): set<Id> {
    set r | r in leads && !HasDelivery(ds, r)
  }

  ghost function Attempted(journal: map<Id, Journal>, from: Time, to: Time): set<(Id, nat)> {
    set d, n | d in journal && n in journal[d] && Within(journal[d][n].startedAt, from, to) :: (d, n)
  }

  /** Everything that did not succeed, the attempts of unknown outcome included. */
  ghost function Unsuccessful(journal: map<Id, Journal>, tries: set<(Id, nat)>): set<(Id, nat)> {
    set x | x in tries && x.0 in journal && x.1 in journal[x.0] && journal[x.0][x.1].outcome != Success
  }

  ghost function Successful(journal: map<Id, Journal>, tries: set<(Id, nat)>): set<(Id, nat)> {
    set x | x in tries && x.0 in journal && x.1 in journal[x.0] && journal[x.0][x.1].outcome == Success
  }

  ghost function StatsOf(requests: Requests, ds: Deliveries, journal: map<Id, Journal>, from: Time, to: Time): Stats {
    Stats(|Leads(requests, from, to)|,
          |Unserved(ds, Leads(requests, from, to))|,
          |Sent(requests, ds, from, to, Every)|,
          |Sent(requests, ds, from, to, DeliveredOnes)|,
          |Sent(requests, ds, from, to, QueuedOnes)|,
          |Sent(requests, ds, from, to, FailedOnes)|,
          |Attempted(journal, from, to)|,
          |Unsuccessful(journal, Attempted(journal, from, to))|)
  }

  lemma LeadsOf(requests: Requests, from: Time, to: Time)
    ensures Leads(requests, from, to) == set r | r in requests && from <= requests[r].receivedAt < to
  {
    var written := set r | r in requests && from <= requests[r].receivedAt < to;
    forall r | r in written ensures r in Leads(requests, from, to) {
    }
    forall r | r in Leads(requests, from, to) ensures r in written {
    }
  }

  lemma TotalAre(requests: Requests, ds: Deliveries, from: Time, to: Time)
    ensures Sent(requests, ds, from, to, Every)
         == set d | d in ds && ds[d].requestId in requests
                    && from <= requests[ds[d].requestId].receivedAt < to
  {
    var written := set d | d in ds && ds[d].requestId in requests
                           && from <= requests[ds[d].requestId].receivedAt < to;
    forall d | d in written ensures d in Sent(requests, ds, from, to, Every) {
    }
    forall d | d in Sent(requests, ds, from, to, Every) ensures d in written {
    }
  }

  lemma DeliveredAre(requests: Requests, ds: Deliveries, from: Time, to: Time)
    ensures Sent(requests, ds, from, to, DeliveredOnes)
         == set d | d in ds && ds[d].requestId in requests
                    && from <= requests[ds[d].requestId].receivedAt < to && ds[d].status == Delivered
  {
    var written := set d | d in ds && ds[d].requestId in requests
                           && from <= requests[ds[d].requestId].receivedAt < to && ds[d].status == Delivered;
    forall d | d in written ensures d in Sent(requests, ds, from, to, DeliveredOnes) {
    }
    forall d | d in Sent(requests, ds, from, to, DeliveredOnes) ensures d in written {
    }
  }

  lemma QueuedAre(requests: Requests, ds: Deliveries, from: Time, to: Time)
    ensures Sent(requests, ds, from, to, QueuedOnes)
         == set d | d in ds && ds[d].requestId in requests
                    && from <= requests[ds[d].requestId].receivedAt < to && ds[d].status in {Pending, InFlight}
  {
    var written := set d | d in ds && ds[d].requestId in requests
                           && from <= requests[ds[d].requestId].receivedAt < to && ds[d].status in {Pending, InFlight};
    forall d | d in written ensures d in Sent(requests, ds, from, to, QueuedOnes) {
    }
    forall d | d in Sent(requests, ds, from, to, QueuedOnes) ensures d in written {
    }
  }

  lemma FailedAre(requests: Requests, ds: Deliveries, from: Time, to: Time)
    ensures Sent(requests, ds, from, to, FailedOnes)
         == set d | d in ds && ds[d].requestId in requests
                    && from <= requests[ds[d].requestId].receivedAt < to && ds[d].status == Failed
  {
    var written := set d | d in ds && ds[d].requestId in requests
                           && from <= requests[ds[d].requestId].receivedAt < to && ds[d].status == Failed;
    forall d | d in written ensures d in Sent(requests, ds, from, to, FailedOnes) {
    }
    forall d | d in Sent(requests, ds, from, to, FailedOnes) ensures d in written {
    }
  }

  /** The counters of leads and attempts, written out over the tables. */
  lemma WhatStatsCount(requests: Requests, ds: Deliveries, journal: map<Id, Journal>, from: Time, to: Time)
    ensures var st := StatsOf(requests, ds, journal, from, to);
            && st.accepted == |set r | r in requests && from <= requests[r].receivedAt < to|
            && st.withoutRecipients
               == |set r | r in requests && from <= requests[r].receivedAt < to
                           && (forall d :: d in ds ==> ds[d].requestId != r)|
            && st.attempts
               == |set d, n | d in journal && n in journal[d] && from <= journal[d][n].startedAt < to :: (d, n)|
            && st.attemptsFailed == |set d, n | d in journal && n in journal[d] && from <= journal[d][n].startedAt < to
                                                && journal[d][n].outcome in {Failure, Unknown} :: (d, n)|
  {
    LeadsOf(requests, from, to);
    assert Unserved(ds, Leads(requests, from, to))
        == set r | r in requests && from <= requests[r].receivedAt < to
                   && (forall d :: d in ds ==> ds[d].requestId != r);
    assert Attempted(journal, from, to)
        == set d, n | d in journal && n in journal[d] && from <= journal[d][n].startedAt < to :: (d, n);
    assert Unsuccessful(journal, Attempted(journal, from, to))
        == set d, n | d in journal && n in journal[d] && from <= journal[d][n].startedAt < to
                      && journal[d][n].outcome in {Failure, Unknown} :: (d, n);
  }

  /** The counters of deliveries, written out over the tables. */
  lemma WhatColumnsCount(requests: Requests, ds: Deliveries, journal: map<Id, Journal>, from: Time, to: Time)
    ensures var st := StatsOf(requests, ds, journal, from, to);
            && st.total == |set d | d in ds && ds[d].requestId in requests
                                    && from <= requests[ds[d].requestId].receivedAt < to|
            && st.delivered == |set d | d in ds && ds[d].requestId in requests
                                        && from <= requests[ds[d].requestId].receivedAt < to
                                        && ds[d].status == Delivered|
            && st.queued == |set d | d in ds && ds[d].requestId in requests
                                     && from <= requests[ds[d].requestId].receivedAt < to
                                     && ds[d].status in {Pending, InFlight}|
            && st.failed == |set d | d in ds && ds[d].requestId in requests
                                     && from <= requests[ds[d].requestId].receivedAt < to
                                     && ds[d].status == Failed|
  {
    TotalAre(requests, ds, from, to);
    DeliveredAre(requests, ds, from, to);
    QueuedAre(requests, ds, from, to);
    FailedAre(requests, ds, from, to);
  }

  function Plus(a: Stats, b: Stats): Stats {
    Stats(a.accepted + b.accepted, a.withoutRecipients + b.withoutRecipients, a.total + b.total,
          a.delivered + b.delivered, a.queued + b.queued, a.failed + b.failed, a.attempts + b.attempts,
          a.attemptsFailed + b.attemptsFailed)
  }

  lemma TwoPieces<T(!new)>(all: set<T>, a: set<T>, b: set<T>)
    requires forall x :: x in all <==> x in a || x in b
    requires forall x :: x in a ==> x !in b
    ensures |all| == |a| + |b|
  {
    assert all == a + b;
  }

  /** Every delivery of the cohort is in exactly one of the three columns, and every attempt
      that is not a failed one was a success. */
  lemma ColumnsAddUp(requests: Requests, ds: Deliveries, journal: map<Id, Journal>, from: Time, to: Time)
    ensures var st := StatsOf(requests, ds, journal, from, to);
            && st.delivered + st.queued + st.failed == st.total
            && st.attempts - st.attemptsFailed == |Successful(journal, Attempted(journal, from, to))|
  {
    var tries := Attempted(journal, from, to);
    TwoPieces(tries, Unsuccessful(journal, tries), Successful(journal, tries));
    var d, q, f := Sent(requests, ds, from, to, DeliveredOnes), Sent(requests, ds, from, to, QueuedOnes),
                   Sent(requests, ds, from, to, FailedOnes);
    forall x | x in d ensures x !in q {
    }
    TwoPieces(d + q, d, q);
    forall x | x in d + q ensures x !in f {
    }
    forall x ensures x in Sent(requests, ds, from, to, Every) <==> x in d + q || x in f {
    }
    TwoPieces(Sent(requests, ds, from, to, Every), d + q, f);
  }

  lemma SentSplits(requests: Requests, ds: Deliveries, a: Time, b: Time, c: Time, column: Column)
    requires a <= b <= c
    ensures |Sent(requests, ds, a, c, column)|
        == |Sent(requests, ds, a, b, column)| + |Sent(requests, ds, b, c, column)|
  {
    var x, y, z := Sent(requests, ds, a, c, column), Sent(requests, ds, a, b, column), Sent(requests, ds, b, c, column);
    forall d ensures d in x <==> d in y || d in z {
    }
    forall d | d in y ensures d !in z {
    }
    TwoPieces(x, y, z);
  }

  lemma LeadsSplit(requests: Requests, ds: Deliveries, a: Time, b: Time, c: Time)
    requires a <= b <= c
    ensures |Leads(requests, a, c)| == |Leads(requests, a, b)| + |Leads(requests, b, c)|
    ensures |Unserved(ds, Leads(requests, a, c))|
        == |Unserved(ds, Leads(requests, a, b))| + |Unserved(ds, Leads(requests, b, c))|
  {
    var x, y, z := Leads(requests, a, c), Leads(requests, a, b), Leads(requests, b, c);
    forall r ensures r in x <==> r in y || r in z {
    }
    forall r | r in y ensures r !in z {
    }
    TwoPieces(x, y, z);
    UnservedSplits(ds, x, y, z);
  }

  lemma UnservedSplits(ds: Deliveries, x: set<Id>, y: set<Id>, z: set<Id>)
    requires forall r :: r in x <==> r in y || r in z
    requires forall r :: r in y ==> r !in z
    ensures |Unserved(ds, x)| == |Unserved(ds, y)| + |Unserved(ds, z)|
  {
    TwoPieces(Unserved(ds, x), Unserved(ds, y), Unserved(ds, z));
  }

  lemma AttemptsSplit(journal: map<Id, Journal>, a: Time, b: Time, c: Time)
    requires a <= b <= c
    ensures |Attempted(journal, a, c)| == |Attempted(journal, a, b)| + |Attempted(journal, b, c)|
    ensures |Unsuccessful(journal, Attempted(journal, a, c))|
         == |Unsuccessful(journal, Attempted(journal, a, b))| + |Unsuccessful(journal, Attempted(journal, b, c))|
  {
    var x, y, z := Attempted(journal, a, c), Attempted(journal, a, b), Attempted(journal, b, c);
    forall k ensures k in x <==> k in y || k in z {
    }
    forall k | k in y ensures k !in z {
    }
    TwoPieces(x, y, z);
    UnsuccessfulSplits(journal, x, y, z);
  }

  lemma UnsuccessfulSplits(journal: map<Id, Journal>, x: set<(Id, nat)>, y: set<(Id, nat)>, z: set<(Id, nat)>)
    requires forall k :: k in x <==> k in y || k in z
    requires forall k :: k in y ==> k !in z
    ensures |Unsuccessful(journal, x)| == |Unsuccessful(journal, y)| + |Unsuccessful(journal, z)|
  {
    TwoPieces(Unsuccessful(journal, x), Unsuccessful(journal, y), Unsuccessful(journal, z));
  }

  /** Periods are half-open, so the counters of adjacent periods add up: nothing is counted
      twice at the boundary and nothing falls between. */
  lemma PeriodsAdd(requests: Requests, ds: Deliveries, journal: map<Id, Journal>, a: Time, b: Time, c: Time)
    requires a <= b <= c
    ensures StatsOf(requests, ds, journal, a, c)
         == Plus(StatsOf(requests, ds, journal, a, b), StatsOf(requests, ds, journal, b, c))
  {
    LeadsSplit(requests, ds, a, b, c);
    AttemptsSplit(journal, a, b, c);
    SentSplits(requests, ds, a, b, c, Every);
    SentSplits(requests, ds, a, b, c, DeliveredOnes);
    SentSplits(requests, ds, a, b, c, QueuedOnes);
    SentSplits(requests, ds, a, b, c, FailedOnes);
  }

  /** The two reports agree: over a period that covers every lead, the counters count every row,
      and what failed or had nowhere to go is what the problem list counts. */
  lemma StatsMatchProblems(s: Settings, w: World, journal: map<Id, Journal>, from: Time, to: Time, cutoff: Time)
    requires WorldInv(s, w)
    requires forall r :: r in w.requests ==> Within(w.requests[r].receivedAt, from, to)
    ensures var st := StatsOf(w.requests, Table(w), journal, from, to);
            && st.accepted == |w.requests.Keys| && st.total == |w.lanes.Keys|
            && st.withoutRecipients == |Counted(w.requests, Table(w), cutoff, NobodyToDeliverTo)|
            && st.failed == |Counted(w.requests, Table(w), cutoff, GaveUp)|
  {
    forall d | d in w.lanes ensures Table(w)[d].requestId in w.requests {
      assert LaneAt(s, w, d);
    }
    forall r: Id ensures r in Leads(w.requests, from, to) <==> r in w.requests {
    }
    assert Leads(w.requests, from, to) == w.requests.Keys;
    assert Unserved(Table(w), Leads(w.requests, from, to)) == Counted(w.requests, Table(w), cutoff, NobodyToDeliverTo);
    AllSent(w, from, to);
    FailedSent(w, from, to, cutoff);
  }

  lemma FailedSent(w: World, from: Time, to: Time, cutoff: Time)
    requires forall d :: d in w.lanes ==> Table(w)[d].requestId in w.requests
    requires forall r :: r in w.requests ==> Within(w.requests[r].receivedAt, from, to)
    ensures Sent(w.requests, Table(w), from, to, FailedOnes) == Counted(w.requests, Table(w), cutoff, GaveUp)
  {
    var sent := Sent(w.requests, Table(w), from, to, FailedOnes);
    var counted := Counted(w.requests, Table(w), cutoff, GaveUp);
    forall d | d in counted ensures d in sent {
      assert Table(w)[d].requestId in w.requests;
    }
    forall d | d in sent ensures d in counted {
    }
  }

  lemma AllSent(w: World, from: Time, to: Time)
    requires forall d :: d in w.lanes ==> Table(w)[d].requestId in w.requests
    requires forall r :: r in w.requests ==> Within(w.requests[r].receivedAt, from, to)
    ensures Sent(w.requests, Table(w), from, to, Every) == w.lanes.Keys
  {
    forall d: Id
      ensures d in Sent(w.requests, Table(w), from, to, Every) <==> d in w.lanes
    {
      if d in w.lanes { assert Table(w)[d].requestId in w.requests; }
    }
  }
}
