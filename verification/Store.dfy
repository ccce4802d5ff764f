// The database as the service uses it: three mutable tables and one method per
// transaction. The ghost world is what the tables stand for; every method moves it by
// exactly one event of the protocol, so everything proved of runs holds of the tables.

module Store {
  import opened Types
  import opened Config
  import opened Rows
  import opened Lanes
  import opened Protocol
  import ClaimQuery
  import ClaimRefinement
  import Intake
  import Requeue
  import Retry
  import Sender

  datatype Accepted = Accepted(requestId: Id, duplicate: bool, receivedAt: Time, recipientCount: nat)

  datatype Attached = Attached(requestId: Id, added: nat, alreadyPresent: nat, ids: seq<Id>)

  function JournalsOf(lanes: map<Id, Lane>): map<Id, Journal> {
    map d | d in lanes :: lanes[d].journal
  }

  // --- the set-based statements -------------------------------------------------------------

  /** UPDATE ... FROM picked. */
  function TakeAll(ds: map<Id, Delivery>, rows: seq<Id>, now: Time, worker: WorkerId, lease: real): map<Id, Delivery> {
    map d | d in ds :: if d in rows then TakeRow(ds[d], now, worker, lease) else ds[d]
  }

  /** INSERT ... ON CONFLICT DO NOTHING, for the rows that came from an expired lease. */
  function LogLost(journal: map<Id, Journal>, previous: map<Id, Delivery>, rows: seq<Id>, now: Time, worker: WorkerId)
    : map<Id, Journal>
    requires previous.Keys == journal.Keys
  {
    map d | d in journal :: if d in rows then RecordLost(journal[d], previous[d], now, worker) else journal[d]
  }

  /** UPDATE ... FROM classified. */
  function RequeueAll(ds: map<Id, Delivery>, sel: set<Id>, includeDelivered: bool, now: Time): map<Id, Delivery> {
    map d | d in ds :: if d in sel then RequeueRow(ds[d], includeDelivered, now) else ds[d]
  }

  /** A requeue seen on the table: the counters add up, exactly the counted rows become due now with
      a fresh budget, an expired lease is taken over exactly when a claim could take it, and the rest
      is untouched. */
  ghost predicate Booked(ds: map<Id, Delivery>, ds': map<Id, Delivery>, sel: set<Id>, includeDelivered: bool,
                         o: Requeue.Outcome, now: Time)
  {
    && sel <= ds.Keys && ds'.Keys == ds.Keys && o.requeued <= sel
    && |o.requeued| + o.skippedInFlight + o.skippedDelivered == |sel|
    && (forall d :: d in o.requeued ==>
          ds'[d].status == Pending && ds'[d].claimableAt == now && ds'[d].attempts == 0)
    && (forall d :: d in ds && d !in o.requeued ==> ds'[d] == ds[d])
    && (forall d :: d in sel && ds[d].status == InFlight ==> (d in o.requeued <==> Due(ds[d], now)))
    && (forall d :: d in sel && ds[d].status == Delivered ==> (d in o.requeued <==> includeDelivered))
    && (forall d :: d in sel && ds[d].status in {Pending, Failed} ==> d in o.requeued)
    && o.skippedInFlight == |set d | d in sel && d !in o.requeued && ds[d].status == InFlight|
    && o.skippedDelivered == |set d | d in sel && d !in o.requeued && ds[d].status == Delivered|
  }

  lemma RequeueEffect(ds: map<Id, Delivery>, sel: set<Id>, includeDelivered: bool, now: Time)
    requires sel <= ds.Keys
    requires forall d :: d in sel ==> (ds[d].status == InFlight <==> ds[d].leaseExpiresAt.Some?)
    requires forall d :: d in sel && ds[d].status == InFlight ==> ds[d].claimableAt == ds[d].leaseExpiresAt.value
    ensures Booked(ds, RequeueAll(ds, sel, includeDelivered, now), sel, includeDelivered,
                   Requeue.OutcomeOf(ds, sel, includeDelivered, now), now)
  {
    Requeue.EverySelectedRowIsCounted(ds, sel, includeDelivered, now);
    forall d | d in sel ensures d in Requeue.OutcomeOf(ds, sel, includeDelivered, now).requeued
                           <==> Classify(ds[d], includeDelivered, now) == Requeued {
      Requeue.RequeuedRow(ds[d], includeDelivered, now);
    }
    SkippedRows(ds, sel, includeDelivered, now);
  }

  /** Of the selected rows that stay, those in flight and those delivered are counted apart. */
  lemma SkippedRows(ds: map<Id, Delivery>, sel: set<Id>, includeDelivered: bool, now: Time)
    requires sel <= ds.Keys
    ensures var o := Requeue.OutcomeOf(ds, sel, includeDelivered, now);
            && o.skippedInFlight == |set d | d in sel && d !in o.requeued && ds[d].status == InFlight|
            && o.skippedDelivered == |set d | d in sel && d !in o.requeued && ds[d].status == Delivered|
  {
    var o := Requeue.OutcomeOf(ds, sel, includeDelivered, now);
    SkippedAre(ds, sel, includeDelivered, now, o.requeued, SkipInFlight, InFlight);
    SkippedAre(ds, sel, includeDelivered, now, o.requeued, SkipDelivered, Delivered);
  }

  lemma SkippedAre(ds: map<Id, Delivery>, sel: set<Id>, includeDelivered: bool, now: Time, requeued: set<Id>,
                   action: Action, status: Status)
    requires sel <= ds.Keys && requeued == Requeue.WithAction(ds, sel, includeDelivered, now, Requeued)
    requires (action == SkipInFlight && status == InFlight) || (action == SkipDelivered && status == Delivered)
    ensures (set d | d in sel && d !in requeued && ds[d].status == status)
         == Requeue.WithAction(ds, sel, includeDelivered, now, action)
  {
    var skipped := Requeue.WithAction(ds, sel, includeDelivered, now, action);
    forall d | d in skipped ensures d in sel && d !in requeued && ds[d].status == status {
    }
    forall d | d in sel && d !in requeued && ds[d].status == status ensures d in skipped {
      assert Classify(ds[d], includeDelivered, now) != Requeued;
    }
  }

  lemma RequeueIsBooked(s: Settings, w: World, sel: set<Id>, includeDelivered: bool)
    requires WorldInv(s, w) && sel <= w.lanes.Keys
    ensures Booked(Table(w), RequeueAll(Table(w), sel, includeDelivered, w.now), sel, includeDelivered,
                   Requeue.OutcomeOf(Table(w), sel, includeDelivered, w.now), w.now)
  {
    forall d | d in sel
      ensures Table(w)[d].status == InFlight <==> Table(w)[d].leaseExpiresAt.Some?
      ensures Table(w)[d].status == InFlight ==> Table(w)[d].claimableAt == Table(w)[d].leaseExpiresAt.value
    {
      assert LaneAt(s, w, d);
    }
    RequeueEffect(Table(w), sel, includeDelivered, w.now);
  }

  /** Collapses repeated addresses, remembering the ones already seen. */
  method DedupeRecipients(recipients: seq<Recipient>) returns (unique: seq<Recipient>)
    ensures unique == Dedupe(recipients)
  {
    var seen: set<string> := {};
    unique := [];
    for i := 0 to |recipients|
      invariant unique == Dedupe(recipients[..i])
      invariant seen == Intake.UrlsOf(unique)
    {
      assert recipients[..i + 1][..i] == recipients[..i];
      Intake.MentionsIsMembership(unique, recipients[i].url);
      if recipients[i].url !in seen {
        Intake.AppendUrls(unique, recipients[i]);
        seen := seen + {recipients[i].url};
        unique := unique + [recipients[i]];
      }
    }
    assert recipients[..|recipients|] == recipients;
  }

  // --- what the events do to the tables --------------------------------------------------

  lemma QuietDeed(s: Settings, now: Time, lane: Lane, deed: Deed)
    requires Can(s, now, lane, deed) && !deed.Take? && !deed.Record? && !deed.Reset?
    ensures Do(s, now, lane, deed).row == lane.row && Do(s, now, lane, deed).journal == lane.journal
  {
  }

  lemma QuietLane(s: Settings, w: World, e: Event, d: Id)
    requires Enabled(s, w, e) && d in w.lanes
    requires e.SendStart? || e.SendEnd? || e.Abandon?
    ensures d in Apply(s, w, e).lanes
    ensures Apply(s, w, e).lanes[d].row == w.lanes[d].row && Apply(s, w, e).lanes[d].journal == w.lanes[d].journal
  {
    assert Possible(s, w, e, d);
    QuietDeed(s, w.now, w.lanes[d], DeedOf(w, e, d));
  }

  lemma QuietTables(s: Settings, w: World, e: Event)
    requires Enabled(s, w, e)
    requires e.Tick? || e.SendStart? || e.SendEnd? || e.Abandon?
    ensures Apply(s, w, e).requests == w.requests
    ensures RowsOf(Apply(s, w, e).lanes) == RowsOf(w.lanes)
    ensures JournalsOf(Apply(s, w, e).lanes) == JournalsOf(w.lanes)
  {
    if !e.Tick? {
      forall d | d in w.lanes
        ensures d in Apply(s, w, e).lanes && Apply(s, w, e).lanes[d].row == w.lanes[d].row
        ensures Apply(s, w, e).lanes[d].journal == w.lanes[d].journal
      {
        QuietLane(s, w, e, d);
      }
      SameTables(Apply(s, w, e).lanes, RowsOf(w.lanes), JournalsOf(w.lanes));
    }
  }

  /** One claimed delivery: taken under the next number, with the placeholder if it was lost. */
  lemma ClaimedLane(s: Settings, w: World, e: Event, d: Id)
    requires WorldInv(s, w) && Enabled(s, w, e) && e.ClaimBatch? && d in w.lanes && d in e.picks
    ensures d in Apply(s, w, e).lanes && w.lanes[d].row.requestId in w.requests
    ensures var row, lane' := w.lanes[d].row, Apply(s, w, e).lanes[d];
            var taken := TakeRow(row, w.now, e.worker, s.lease);
            && lane'.row == taken
            && lane'.journal == RecordLost(w.lanes[d].journal, row, w.now, e.worker)
            && lane'.tokens == w.lanes[d].tokens
                 + [Token(e.worker, ClaimOf(d, taken, w.requests[row.requestId]), w.now, Unsent, Held)]
            && taken.totalAttempts == |w.lanes[d].tokens| + 1
  {
    assert LaneAt(s, w, d) && Possible(s, w, e, d);
  }

  lemma ClaimTables(s: Settings, w: World, e: Event, rows: seq<Id>)
    requires WorldInv(s, w) && Enabled(s, w, e) && e.ClaimBatch? && e.picks == ClaimRefinement.Elems(rows)
    ensures Apply(s, w, e).requests == w.requests
    ensures RowsOf(Apply(s, w, e).lanes) == TakeAll(RowsOf(w.lanes), rows, w.now, e.worker, s.lease)
    ensures JournalsOf(Apply(s, w, e).lanes) == LogLost(JournalsOf(w.lanes), RowsOf(w.lanes), rows, w.now, e.worker)
  {
    var lanes' := Apply(s, w, e).lanes;
    forall d | d in w.lanes
      ensures d in lanes' && lanes'[d].row == TakeAll(RowsOf(w.lanes), rows, w.now, e.worker, s.lease)[d]
      ensures lanes'[d].journal == LogLost(JournalsOf(w.lanes), RowsOf(w.lanes), rows, w.now, e.worker)[d]
    {
      ClaimedOrNot(s, w, e, rows, d);
    }
    assert lanes'.Keys == w.lanes.Keys;
    SameTables(lanes', TakeAll(RowsOf(w.lanes), rows, w.now, e.worker, s.lease),
               LogLost(JournalsOf(w.lanes), RowsOf(w.lanes), rows, w.now, e.worker));
  }

  lemma ClaimedOrNot(s: Settings, w: World, e: Event, rows: seq<Id>, d: Id)
    requires WorldInv(s, w) && Enabled(s, w, e) && e.ClaimBatch? && d in w.lanes
    requires e.picks == ClaimRefinement.Elems(rows)
    ensures var lanes' := Apply(s, w, e).lanes;
            && d in lanes'
            && lanes'[d].row == TakeAll(RowsOf(w.lanes), rows, w.now, e.worker, s.lease)[d]
            && lanes'[d].journal == LogLost(JournalsOf(w.lanes), RowsOf(w.lanes), rows, w.now, e.worker)[d]
  {
    if d in e.picks { ClaimedLane(s, w, e, d); } else { assert Possible(s, w, e, d); }
  }

  lemma SameTables(lanes: map<Id, Lane>, rows: map<Id, Delivery>, journals: map<Id, Journal>)
    requires lanes.Keys == rows.Keys == journals.Keys
    requires forall d :: d in lanes ==> lanes[d].row == rows[d] && lanes[d].journal == journals[d]
    ensures RowsOf(lanes) == rows && JournalsOf(lanes) == journals
  {
    assert RowsOf(lanes).Keys == rows.Keys && JournalsOf(lanes).Keys == journals.Keys;
    assert forall d :: d in rows ==> RowsOf(lanes)[d] == rows[d];
    assert forall d :: d in journals ==> JournalsOf(lanes)[d] == journals[d];
  }

  /** The claims returned are the newest tokens of the claimed deliveries. */
  ghost predicate Handed(w: World, w': World, e: Event, rows: seq<Id>, claims: seq<Claim>)
    requires e.ClaimBatch?
  {
    && |claims| == |rows|
    && forall i :: 0 <= i < |rows| ==>
         && rows[i] in w.lanes && rows[i] in w'.lanes
         && w'.lanes[rows[i]].tokens == w.lanes[rows[i]].tokens + [Token(e.worker, claims[i], w.now, Unsent, Held)]
         && claims[i].deliveryId == rows[i]
         && claims[i].attemptNumber == |w.lanes[rows[i]].tokens| + 1
  }

  lemma ClaimsAreTokens(s: Settings, w: World, e: Event, rows: seq<Id>, claims: seq<Claim>)
    requires WorldInv(s, w) && Enabled(s, w, e) && e.ClaimBatch? && e.picks == ClaimRefinement.Elems(rows)
    requires |claims| == |rows|
    requires var taken := TakeAll(RowsOf(w.lanes), rows, w.now, e.worker, s.lease);
             forall i :: 0 <= i < |rows| ==>
               && rows[i] in taken && taken[rows[i]].requestId in w.requests
               && claims[i] == ClaimOf(rows[i], taken[rows[i]], w.requests[taken[rows[i]].requestId])
    ensures Handed(w, Apply(s, w, e), e, rows, claims)
  {
    forall i | 0 <= i < |rows| ensures rows[i] in e.picks && rows[i] in w.lanes {
    }
    forall i | 0 <= i < |rows|
      ensures rows[i] in Apply(s, w, e).lanes
      ensures Apply(s, w, e).lanes[rows[i]].tokens
          == w.lanes[rows[i]].tokens + [Token(e.worker, claims[i], w.now, Unsent, Held)]
      ensures claims[i].attemptNumber == |w.lanes[rows[i]].tokens| + 1
    {
      ClaimedLane(s, w, e, rows[i]);
    }
  }

  lemma PickedRowsExist(s: Settings, w: World, e: Event, rows: seq<Id>)
    requires WorldInv(s, w) && Enabled(s, w, e) && e.ClaimBatch? && e.picks == ClaimRefinement.Elems(rows)
    ensures forall i :: 0 <= i < |rows| ==> rows[i] in w.lanes && w.lanes[rows[i]].row.requestId in w.requests
    ensures e.limit <= 0 ==> |rows| == 0
  {
    forall i | 0 <= i < |rows|
        ensures rows[i] in e.picks && rows[i] in w.lanes && w.lanes[rows[i]].row.requestId in w.requests {
      assert rows[i] in ClaimRefinement.Elems(rows);
      assert LaneAt(s, w, rows[i]);
    }
    if |rows| > 0 {
      assert rows[0] in e.picks;
    }
  }

  lemma OneLaneChanged(lanes: map<Id, Lane>, lanes': map<Id, Lane>, d: Id)
    requires d in lanes && lanes'.Keys == lanes.Keys
    requires forall x :: x in lanes && x != d ==> lanes'[x] == lanes[x]
    ensures RowsOf(lanes') == RowsOf(lanes)[d := lanes'[d].row]
    ensures JournalsOf(lanes') == JournalsOf(lanes)[d := lanes'[d].journal]
  {
    SameTables(lanes', RowsOf(lanes)[d := lanes'[d].row], JournalsOf(lanes)[d := lanes'[d].journal]);
  }

  /** The worker reports on a claim it holds. */
  ghost predicate Holds(w: World, e: Event, worker: WorkerId, claim: Claim, result: AttemptResult) {
    && e.Report? && e.d in w.lanes && HasToken(w.lanes[e.d], e.n)
    && var t := w.lanes[e.d].tokens[e.n - 1];
    && t.wire.Closed? && t.worker == worker && t.claim == claim && ResultOf(t, e.response) == result
  }

  lemma ReportTables(s: Settings, w: World, e: Event, worker: WorkerId, claim: Claim, result: AttemptResult)
    requires Validated(s) && WorldInv(s, w) && Enabled(s, w, e) && Holds(w, e, worker, claim, result)
    ensures var w' := Apply(s, w, e);
            && e.n == claim.attemptNumber && claim.budgetAttempt >= 1
            && w'.requests == w.requests && w'.lanes.Keys == w.lanes.Keys
            && (forall d :: d in w.lanes && d != e.d ==> w'.lanes[d] == w.lanes[d])
            && Rows.RecordResult(s, w.lanes[e.d].row, w.lanes[e.d].journal, worker, claim, result, e.draw, w.now)
               == Ok((w'.lanes[e.d].row, w'.lanes[e.d].journal))
  {
    assert LaneAt(s, w, e.d);
    assert TokenOk(s, w.now, w.requests[w.lanes[e.d].row.requestId], w.lanes[e.d], e.n - 1);
    forall d | d in w.lanes && d != e.d ensures Apply(s, w, e).lanes[d] == w.lanes[d] {
      assert Possible(s, w, e, d);
    }
    assert Possible(s, w, e, e.d);
  }

  lemma RequeuedOrNot(s: Settings, w: World, e: Event, d: Id)
    requires Enabled(s, w, e) && e.ManualRetry? && d in w.lanes
    ensures var lanes' := Apply(s, w, e).lanes;
            && d in lanes' && lanes'[d].journal == w.lanes[d].journal
            && lanes'[d].row == RequeueAll(RowsOf(w.lanes), e.sel, e.includeDelivered, w.now)[d]
  {
    assert Possible(s, w, e, d);
  }

  lemma RetryTables(s: Settings, w: World, e: Event)
    requires Enabled(s, w, e) && e.ManualRetry?
    ensures var w' := Apply(s, w, e);
            && w'.requests == w.requests
            && RowsOf(w'.lanes) == RequeueAll(RowsOf(w.lanes), e.sel, e.includeDelivered, w.now)
            && JournalsOf(w'.lanes) == JournalsOf(w.lanes)
  {
    forall d | d in w.lanes
      ensures d in Apply(s, w, e).lanes && Apply(s, w, e).lanes[d].journal == w.lanes[d].journal
      ensures Apply(s, w, e).lanes[d].row == RequeueAll(RowsOf(w.lanes), e.sel, e.includeDelivered, w.now)[d]
    {
      RequeuedOrNot(s, w, e, d);
    }
    assert Apply(s, w, e).lanes.Keys == w.lanes.Keys;
    SameTables(Apply(s, w, e).lanes, RequeueAll(RowsOf(w.lanes), e.sel, e.includeDelivered, w.now),
               JournalsOf(w.lanes));
  }

  /** A legal selection can be retried; the tables move as the statement says and the counters fit. */
  lemma RetryStep(s: Settings, w: World, e: Event)
    requires Validated(s) && WorldInv(s, w) && e.ManualRetry?
    requires Requeue.LegalSelection(w.requests, Table(w), e.filter, e.cap, e.locked, e.sel)
    ensures Enabled(s, w, e) && e.sel <= w.lanes.Keys
    ensures WorldInv(s, Apply(s, w, e)) && Apply(s, w, e).requests == w.requests
    ensures RowsOf(Apply(s, w, e).lanes) == RequeueAll(Table(w), e.sel, e.includeDelivered, w.now)
    ensures JournalsOf(Apply(s, w, e).lanes) == JournalsOf(w.lanes)
    ensures Booked(Table(w), RequeueAll(Table(w), e.sel, e.includeDelivered, w.now), e.sel, e.includeDelivered,
                   Requeue.OutcomeOf(Table(w), e.sel, e.includeDelivered, w.now), w.now)
    ensures e.includeDelivered ==> Requeue.OutcomeOf(Table(w), e.sel, true, w.now).skippedDelivered == 0
  {
    assert Enabled(s, w, e);
    EventKeeps(s, w, e);
    RetryTables(s, w, e);
    RequeueIsBooked(s, w, e.sel, e.includeDelivered);
    if e.includeDelivered { Requeue.BulkSkipsNoDelivered(Table(w), e.sel, w.now); }
  }

  // --- the statements ------------------------------------------------------------------------

  /** UPDATE deliveries and the journal insert of one reported result. */
  method RecordOn(s: Settings, row: Delivery, entries: Journal, worker: WorkerId, claim: Claim,
                  result: AttemptResult, draw: real, now: Time)
    returns (row': Delivery, entries': Journal)
    requires claim.budgetAttempt >= 1
    ensures Ok((row', entries')) == Rows.RecordResult(s, row, entries, worker, claim, result, draw, now)
  {
    var scheduled: Option<Time> := None;
    row' := row;
    if result.succeeded {
      row' := MarkDelivered(row, result.statusCode, now);
    } else {
      var exhausted := Retry.IsExhausted(s, claim.budgetAttempt);
      var delay := Retry.NextDelay(s, claim.budgetAttempt, draw).value;
      var marked := MarkFailure(row, worker, result, exhausted, delay, now);
      if marked.Some? {
        row' := marked.value;
        scheduled := if row'.status == Failed then None else Some(row'.nextAttemptAt);
      }
    }
    entries' := InsertAttempt(entries, claim.attemptNumber, EntryFor(worker, claim, result, scheduled));
  }

  /** INSERT of the placeholders for attempts whose lease ran out, and the claims returned. */
  method ReturnClaims(journal: map<Id, Journal>, previous: map<Id, Delivery>, taken: map<Id, Delivery>,
                      requests: map<Id, Request>, rows: seq<Id>, now: Time, worker: WorkerId)
    returns (journal': map<Id, Journal>, claims: seq<Claim>)
    requires previous.Keys == taken.Keys == journal.Keys && ClaimRefinement.Distinct(rows)
    requires forall i :: 0 <= i < |rows| ==>
               rows[i] in taken && taken[rows[i]].requestId in requests
    ensures journal' == LogLost(journal, previous, rows, now, worker)
    ensures |claims| == |rows|
    ensures forall i :: 0 <= i < |rows| ==>
              claims[i] == ClaimOf(rows[i], taken[rows[i]], requests[taken[rows[i]].requestId])
  {
    journal', claims := journal, [];
    for i := 0 to |rows|
      invariant journal'.Keys == journal.Keys && |claims| == i
      invariant forall d :: d in journal ==>
        journal'[d] == if d in rows[..i] then RecordLost(journal[d], previous[d], now, worker) else journal[d]
      invariant forall j :: 0 <= j < i ==>
        claims[j] == ClaimOf(rows[j], taken[rows[j]], requests[taken[rows[j]].requestId])
    {
      var id := rows[i];
      claims := claims + [ClaimOf(id, taken[id], requests[taken[id].requestId])];
      assert rows[..i + 1] == rows[..i] + [id];
      if IsReclaim(previous[id]) {
        journal' := journal'[id := RecordLost(journal'[id], previous[id], now, worker)];
      }
    }
    assert rows[..|rows|] == rows;
    assert forall d :: d in journal ==> journal'[d] == LogLost(journal, previous, rows, now, worker)[d];
  }

  predicate Taken(ds: map<Id, Delivery>, requestId: Id, url: string) {
    exists d :: d in ds && ds[d].requestId == requestId && ds[d].url == url
  }

  lemma TakenIsQueued(lanes: map<Id, Lane>, requestId: Id, url: string)
    ensures Taken(RowsOf(lanes), requestId, url) <==> Queued(lanes, requestId, url)
  {
    if Queued(lanes, requestId, url) {
      var d :| d in lanes && lanes[d].row.requestId == requestId && lanes[d].row.url == url;
      assert d in RowsOf(lanes) && RowsOf(lanes)[d] == lanes[d].row;
    }
    if Taken(RowsOf(lanes), requestId, url) {
      var d :| d in RowsOf(lanes) && RowsOf(lanes)[d].requestId == requestId && RowsOf(lanes)[d].url == url;
      assert d in lanes;
    }
  }

  lemma InsertTables(lanes: map<Id, Lane>, now: Time, requestId: Id, r: Recipient, id: Id)
    requires id !in lanes
    ensures var lanes' := InsertOne(lanes, now, requestId, r, id);
            if Taken(RowsOf(lanes), requestId, r.url) then lanes' == lanes
            else && RowsOf(lanes') == RowsOf(lanes)[id := NewRow(requestId, r, now)]
                 && JournalsOf(lanes') == JournalsOf(lanes)[id := map[]]
                 && lanes'.Keys == lanes.Keys + {id}
  {
    TakenIsQueued(lanes, requestId, r.url);
    var lanes' := InsertOne(lanes, now, requestId, r, id);
    if !Taken(RowsOf(lanes), requestId, r.url) {
      SameTables(lanes', RowsOf(lanes)[id := NewRow(requestId, r, now)], JournalsOf(lanes)[id := map[]]);
    }
  }

  /** `added` names exactly the rows that an insert has created so far. */
  ghost predicate Adds(lanes: map<Id, Lane>, inserted: map<Id, Lane>, added: seq<Id>) {
    && ClaimRefinement.Distinct(added)
    && inserted.Keys == lanes.Keys + ClaimRefinement.Elems(added)
    && lanes.Keys !! ClaimRefinement.Elems(added)
  }

  lemma AddsOne(lanes: map<Id, Lane>, inserted: map<Id, Lane>, added: seq<Id>, id: Id, inserted': map<Id, Lane>)
    requires Adds(lanes, inserted, added) && id !in inserted && inserted'.Keys == inserted.Keys + {id}
    ensures Adds(lanes, inserted', added + [id])
  {
    assert ClaimRefinement.Elems(added + [id]) == ClaimRefinement.Elems(added) + {id};
    forall i | 0 <= i < |added| ensures added[i] != id {
      assert added[i] in ClaimRefinement.Elems(added);
    }
  }

  /** A delivery after an insert: as it was, or new and belonging to the lead. */
  lemma InsertedLane(lanes: map<Id, Lane>, now: Time, requestId: Id, rs: seq<Recipient>, ids: seq<Id>, d: Id)
    requires |rs| == |ids| && FreshIds(lanes, ids)
    ensures var lanes' := InsertDeliveries(lanes, now, requestId, rs, ids);
            && (d in lanes ==> d in lanes' && lanes'[d] == lanes[d])
            && (d in lanes' && d !in lanes ==> d in ids && lanes'[d].row.requestId == requestId)
  {
    InsertFrames(lanes, now, requestId, rs, ids);
  }

  lemma NextIdIsFree(lanes: map<Id, Lane>, now: Time, requestId: Id, rs: seq<Recipient>, ids: seq<Id>, i: nat)
    requires |rs| == |ids| && FreshIds(lanes, ids) && i < |ids|
    ensures ids[i] !in InsertDeliveries(lanes, now, requestId, rs[..i], ids[..i])
  {
    InsertedLane(lanes, now, requestId, rs[..i], ids[..i], ids[i]);
  }

  /** One conflict-checked row: the tables, the ids returned and the lanes move together. */
  lemma InsertNext(lanes: map<Id, Lane>, now: Time, requestId: Id, rs: seq<Recipient>, ids: seq<Id>, i: nat)
    requires |rs| == |ids| && i < |rs| && FreshIds(lanes, ids)
    ensures var inserted := InsertDeliveries(lanes, now, requestId, rs[..i], ids[..i]);
            var inserted' := InsertDeliveries(lanes, now, requestId, rs[..i + 1], ids[..i + 1]);
            && ids[i] !in inserted
            && if Taken(RowsOf(inserted), requestId, rs[i].url) then inserted' == inserted
               else RowsOf(inserted') == RowsOf(inserted)[ids[i] := NewRow(requestId, rs[i], now)]
                    && JournalsOf(inserted') == JournalsOf(inserted)[ids[i] := map[]]
                    && inserted'.Keys == inserted.Keys + {ids[i]}
  {
    assert rs[..i + 1][..i] == rs[..i] && ids[..i + 1][..i] == ids[..i];
    NextIdIsFree(lanes, now, requestId, rs, ids, i);
    InsertTables(InsertDeliveries(lanes, now, requestId, rs[..i], ids[..i]), now, requestId, rs[i], ids[i]);
  }

  /** INSERT ... ON CONFLICT DO NOTHING RETURNING id. */
  method InsertAll(ds: map<Id, Delivery>, journal: map<Id, Journal>, now: Time, requestId: Id,
                   rs: seq<Recipient>, ids: seq<Id>, ghost lanes: map<Id, Lane>)
    returns (ds': map<Id, Delivery>, journal': map<Id, Journal>, added: seq<Id>)
    requires |rs| == |ids| && FreshIds(lanes, ids) && ds == RowsOf(lanes) && journal == JournalsOf(lanes)
    ensures var lanes' := InsertDeliveries(lanes, now, requestId, rs, ids);
            ds' == RowsOf(lanes') && journal' == JournalsOf(lanes') && Adds(lanes, lanes', added)
  {
    ds', journal', added := ds, journal, [];
    ghost var inserted := lanes;
    for i := 0 to |rs|
      invariant inserted == InsertDeliveries(lanes, now, requestId, rs[..i], ids[..i])
      invariant ds' == RowsOf(inserted) && journal' == JournalsOf(inserted)
      invariant Adds(lanes, inserted, added)
    {
      InsertNext(lanes, now, requestId, rs, ids, i);
      ghost var before := inserted;
      inserted := InsertDeliveries(lanes, now, requestId, rs[..i + 1], ids[..i + 1]);
      if !Taken(ds', requestId, rs[i].url) {
        AddsOne(lanes, before, added, ids[i], inserted);
        ds', journal' := ds'[ids[i] := NewRow(requestId, rs[i], now)], journal'[ids[i] := map[]];
        added := added + [ids[i]];
      }
    }
    assert rs[..|rs|] == rs && ids[..|ids|] == ids;
  }

  lemma DisjointSum(all: set<Id>, a: set<Id>, b: set<Id>)
    requires all == a + b && a !! b
    ensures |all| == |a| + |b|
  {
  }

  /** The rows one insert adds all belong to its lead. */
  lemma AddedBelong(lanes: map<Id, Lane>, now: Time, requestId: Id, rs: seq<Recipient>, ids: seq<Id>, added: seq<Id>)
    requires |rs| == |ids| && FreshIds(lanes, ids)
    requires Adds(lanes, InsertDeliveries(lanes, now, requestId, rs, ids), added)
    ensures var lanes' := InsertDeliveries(lanes, now, requestId, rs, ids);
            |Intake.DeliveriesOf(lanes', requestId)| == |Intake.DeliveriesOf(lanes, requestId)| + |added|
  {
    var lanes' := InsertDeliveries(lanes, now, requestId, rs, ids);
    var mine, mine' := Intake.DeliveriesOf(lanes, requestId), Intake.DeliveriesOf(lanes', requestId);
    var created := ClaimRefinement.Elems(added);
    forall d: Id ensures d in mine' <==> d in mine + created {
      InsertedLane(lanes, now, requestId, rs, ids, d);
      assert d in lanes' <==> d in lanes || d in created;
    }
    ClaimRefinement.DistinctSize(added);
    DisjointSum(mine', mine, created);
  }

  lemma AcceptEffect(s: Settings, w: World, e: Event)
    requires Validated(s) && WorldInv(s, w) && Enabled(s, w, e) && e.Accept?
    ensures WorldInv(s, Apply(s, w, e))
    ensures Apply(s, w, e) == if KnownKey(w.requests, e.sourceId, e.key) then w
                              else World(w.now, w.requests[e.requestId := Request(e.sourceId, e.key, e.payload, w.now)],
                                         InsertDeliveries(w.lanes, w.now, e.requestId, Dedupe(e.recipients), e.ids))
  {
    EventKeeps(s, w, e);
  }

  lemma RowsOfLead(lanes: map<Id, Lane>, requestId: Id)
    ensures (set d | d in RowsOf(lanes) && RowsOf(lanes)[d].requestId == requestId)
         == Intake.DeliveriesOf(lanes, requestId)
  {
  }

  lemma NewLeadRows(s: Settings, w: World, requestId: Id, rs: seq<Recipient>, ids: seq<Id>, added: seq<Id>)
    requires WorldInv(s, w) && requestId !in w.requests && |rs| == |ids| && FreshIds(w.lanes, ids)
    requires Adds(w.lanes, InsertDeliveries(w.lanes, w.now, requestId, rs, ids), added)
    ensures |Intake.DeliveriesOf(InsertDeliveries(w.lanes, w.now, requestId, rs, ids), requestId)| == |added|
  {
    Intake.NoDeliveriesYet(s, w, requestId);
    AddedBelong(w.lanes, w.now, requestId, rs, ids, added);
  }

  /** The transaction of one claim on the tables it touches. */
  method TakeRows(s: Settings, ds: map<Id, Delivery>, journal: map<Id, Journal>, requests: map<Id, Request>,
                  limit: int, rows: seq<Id>, now: Time, worker: WorkerId)
    returns (ds': map<Id, Delivery>, journal': map<Id, Journal>, claims: seq<Claim>)
    requires ds.Keys == journal.Keys && ClaimRefinement.Distinct(rows) && (limit <= 0 ==> rows == [])
    requires forall i :: 0 <= i < |rows| ==> rows[i] in ds && ds[rows[i]].requestId in requests
    ensures ds' == TakeAll(ds, rows, now, worker, s.lease)
    ensures journal' == LogLost(journal, ds, rows, now, worker)
    ensures |claims| == |rows|
    ensures forall i :: 0 <= i < |rows| ==>
              && rows[i] in ds' && ds'[rows[i]].requestId in requests
              && claims[i] == ClaimOf(rows[i], ds'[rows[i]], requests[ds'[rows[i]].requestId])
  {
    if limit <= 0 {
      assert TakeAll(ds, rows, now, worker, s.lease) == ds;
      assert LogLost(journal, ds, rows, now, worker) == journal;
      return ds, journal, [];
    }
    ds' := TakeAll(ds, rows, now, worker, s.lease);
    journal', claims := ReturnClaims(journal, ds, ds', requests, rows, now, worker);
  }

  class Database {
    const settings: Settings
    var requests: map<Id, Request>
    var deliveries: map<Id, Delivery>
    var journal: map<Id, Journal>
    ghost var world: World

    ghost predicate Valid()
      reads this
    {
      && Validated(settings)
      && WorldInv(settings, world)
      && requests == world.requests
      && deliveries == RowsOf(world.lanes)
      && journal == JournalsOf(world.lanes)
    }

    constructor (s: Settings, ghost t: Time)
      requires Validated(s)
      ensures Valid() && settings == s && world == Initial(t)
    {
      settings := s;
      requests, deliveries, journal := map[], map[], map[];
      world := Initial(t);
    }

    /** Events that touch no table: the clock, requests on the wire, crashes. */
    ghost method Elsewhere(e: Event)
      requires Valid() && Enabled(settings, world, e)
      requires e.Tick? || e.SendStart? || e.SendEnd? || e.Abandon?
      modifies this`world
      ensures Valid() && world == Apply(settings, old(world), e)
    {
      EventKeeps(settings, world, e);
      QuietTables(settings, world, e);
      world := Apply(settings, world, e);
    }

    /** Hands out the chosen rows: each under the next attempt number, with its payload, and
        with a placeholder in the journal where the row came from an expired lease. */
    method ClaimBatch(worker: WorkerId, limit: int, now: Time, rows: seq<Id>,
                      ghost snapshot: ClaimQuery.Table, ghost window: set<Id>, ghost locked: set<Id>)
      returns (claims: seq<Claim>)
      requires Valid() && now == world.now && ClaimRefinement.Distinct(rows)
      requires ClaimQuery.LegalClaim(settings, Table(world), now, limit, snapshot, window, locked,
                                     ClaimRefinement.Elems(rows))
      modifies this`deliveries, this`journal, this`world
      ensures Valid()
      ensures var e := Event.ClaimBatch(worker, limit, snapshot, window, locked, ClaimRefinement.Elems(rows));
              Enabled(settings, old(world), e) && world == Apply(settings, old(world), e)
      ensures var e := Event.ClaimBatch(worker, limit, snapshot, window, locked, ClaimRefinement.Elems(rows));
              Handed(old(world), world, e, rows, claims)
    {
      ghost var picks := ClaimRefinement.Elems(rows);
      ghost var e := Event.ClaimBatch(worker, limit, snapshot, window, locked, picks);
      LegalClaimsAreEnabled(settings, world, e);
      EventKeeps(settings, world, e);
      ClaimTables(settings, world, e, rows);
      ghost var w, w' := world, Apply(settings, world, e);
      PickedRowsExist(settings, w, e, rows);
      deliveries, journal, claims := TakeRows(settings, deliveries, journal, requests, limit, rows, now, worker);
      ClaimsAreTokens(settings, w, e, rows, claims);
      world := w';
    }

    /** Records the result of one claim: settle or reschedule the row, then journal. */
    method RecordResult(worker: WorkerId, claim: Claim, result: AttemptResult, draw: real, now: Time,
                        ghost response: Sender.Response)
      requires Valid() && now == world.now
      requires var e := Report(claim.deliveryId, claim.attemptNumber, response, draw);
               Enabled(settings, world, e) && Holds(world, e, worker, claim, result)
      modifies this`deliveries, this`journal, this`world
      ensures Valid()
      ensures world == Apply(settings, old(world), Report(claim.deliveryId, claim.attemptNumber, response, draw))
    {
      var id := claim.deliveryId;
      ghost var e := Report(id, claim.attemptNumber, response, draw);
      EventKeeps(settings, world, e);
      ReportTables(settings, world, e, worker, claim, result);
      ghost var w' := Apply(settings, world, e);
      var row, entries := RecordOn(settings, deliveries[id], journal[id], worker, claim, result, draw, now);
      OneLaneChanged(world.lanes, w'.lanes, id);
      deliveries, journal := deliveries[id := row], journal[id := entries];
      world := w';
    }

    /** Puts the selected rows back in the queue, except live leases and, without the opt-in,
        delivered ones. */
    method RequeueSelected(filter: Requeue.Filter, cap: Option<nat>, includeDelivered: bool, now: Time, sel: set<Id>,
                           ghost locked: set<Id>)
      returns (outcome: Requeue.Outcome)
      requires Valid() && now == world.now
      requires Requeue.LegalSelection(requests, deliveries, filter, cap, locked, sel)
      modifies this`deliveries, this`world
      ensures Valid()
      ensures var e := ManualRetry(filter, cap, includeDelivered, locked, sel);
              Enabled(settings, old(world), e) && world == Apply(settings, old(world), e)
      ensures Booked(old(deliveries), deliveries, sel, includeDelivered, outcome, now)
      ensures includeDelivered ==> outcome.skippedDelivered == 0
    {
      ghost var e := ManualRetry(filter, cap, includeDelivered, locked, sel);
      RetryStep(settings, world, e);
      ghost var w := world;
      outcome := Requeue.OutcomeOf(deliveries, sel, includeDelivered, now);
      deliveries := RequeueAll(deliveries, sel, includeDelivered, now);
      world := Apply(settings, w, e);
      assert deliveries == RowsOf(world.lanes) && journal == JournalsOf(world.lanes);
    }

    /** Retry one lead; None when there is no such lead. */
    method RequeueRequest(requestId: Id, recipients: seq<string>, includeDelivered: bool, now: Time, sel: set<Id>,
                          ghost locked: set<Id>)
      returns (outcome: Option<Requeue.Outcome>)
      requires Valid() && now == world.now
      requires Requeue.LegalSelection(requests, deliveries, Requeue.OneLead(requestId, recipients), None, locked, sel)
      modifies this`deliveries, this`world
      ensures Valid()
      ensures outcome.None? <==> requestId !in requests
      ensures outcome.None? ==> deliveries == old(deliveries) && world == old(world)
      ensures outcome.Some? ==>
                var e := ManualRetry(Requeue.OneLead(requestId, recipients), None, includeDelivered, locked, sel);
                && Enabled(settings, old(world), e) && world == Apply(settings, old(world), e)
                && Booked(old(deliveries), deliveries, sel, includeDelivered, outcome.value, now)
      ensures forall d :: d in sel <==>
                && d in old(deliveries) && d !in locked && old(deliveries)[d].requestId == requestId
                && (recipients == [] || old(deliveries)[d].url in recipients
                    || exists name :: name in recipients && old(deliveries)[d].name == Some(name))
      ensures forall d :: d in old(deliveries) && old(deliveries)[d].requestId != requestId ==>
                d in deliveries && deliveries[d] == old(deliveries)[d]
    {
      Requeue.OneLeadSelects(requests, deliveries, requestId, recipients, locked, sel);
      if requestId !in requests {
        return None;
      }
      var r := RequeueSelected(Requeue.OneLead(requestId, recipients), None, includeDelivered, now, sel, locked);
      return Some(r);
    }

    /** Bulk retry: naming 'delivered' in the filter is the opt-in, so nothing is skipped for it. */
    method RequeueBulk(statuses: set<Status>, origin: Option<string>, urls: Option<set<string>>,
                       receivedAfter: Option<Time>, receivedBefore: Option<Time>, cap: nat, now: Time, sel: set<Id>,
                       ghost locked: set<Id>)
      returns (outcome: Requeue.Outcome)
      requires Valid() && now == world.now
      requires var f := Requeue.Matching(statuses, origin, urls, receivedAfter, receivedBefore);
               Requeue.LegalSelection(requests, deliveries, f, Some(cap), locked, sel)
      modifies this`deliveries, this`world
      ensures Valid()
      ensures var f := Requeue.Matching(statuses, origin, urls, receivedAfter, receivedBefore);
              var e := ManualRetry(f, Some(cap), true, locked, sel);
              Enabled(settings, old(world), e) && world == Apply(settings, old(world), e)
      ensures Booked(old(deliveries), deliveries, sel, true, outcome, now) && outcome.skippedDelivered == 0
      ensures forall d :: d in sel ==>
                && d in old(deliveries) && d !in locked && old(deliveries)[d].status in statuses
                && (origin == None || origin == Some("") || origin == Some(old(deliveries)[d].origin))
                && (urls == None || old(deliveries)[d].url in urls.value)
                && (receivedAfter == None || (old(deliveries)[d].requestId in requests
                      && receivedAfter.value <= requests[old(deliveries)[d].requestId].receivedAt))
                && (receivedBefore == None || (old(deliveries)[d].requestId in requests
                      && requests[old(deliveries)[d].requestId].receivedAt <= receivedBefore.value))
      ensures var all := set d | d in old(deliveries) && Requeue.IsBulkRow(requests, old(deliveries), statuses, origin,
                                                           urls, receivedAfter, receivedBefore, locked, d);
              && |sel| == (if cap <= |all| then cap else |all|)
              && forall x, y :: x in sel && y in all && y !in sel ==>
                   x in old(deliveries) && old(deliveries)[x].createdAt <= old(deliveries)[y].createdAt
    {
      Requeue.BulkSelects(requests, deliveries, statuses, origin, urls, receivedAfter, receivedBefore, cap,
                          locked, sel);
      var f := Requeue.Matching(statuses, origin, urls, receivedAfter, receivedBefore);
      outcome := RequeueSelected(f, Some(cap), true, now, sel, locked);
    }

    /** Stores a lead and queues it for every recipient; idempotent on (source, key). */
    method AcceptRequest(sourceId: string, key: string, payload: string, recipients: seq<Recipient>,
                         now: Time, requestId: Id, ids: seq<Id>)
      returns (r: Accepted)
      requires Valid() && now == world.now
      requires Enabled(settings, world, Accept(sourceId, key, payload, recipients, requestId, ids))
      modifies this`requests, this`deliveries, this`journal, this`world
      ensures Valid()
      ensures world == Apply(settings, old(world), Accept(sourceId, key, payload, recipients, requestId, ids))
      ensures r.duplicate <==> KnownKey(old(requests), sourceId, key)
      ensures r.duplicate ==> requests == old(requests) && deliveries == old(deliveries) && journal == old(journal)
      ensures r.requestId in requests && requests[r.requestId].receivedAt == r.receivedAt
      ensures requests[r.requestId].sourceId == sourceId && requests[r.requestId].idempotencyKey == key
      ensures r.recipientCount == |Intake.DeliveriesOf(world.lanes, r.requestId)|
      ensures !r.duplicate ==> r.requestId == requestId && r.receivedAt == now
      ensures !r.duplicate ==> requests == old(requests)[requestId := Request(sourceId, key, payload, now)]
    {
      var unique := DedupeRecipients(recipients);
      AcceptEffect(settings, world, Accept(sourceId, key, payload, recipients, requestId, ids));
      ghost var w' := Apply(settings, world, Accept(sourceId, key, payload, recipients, requestId, ids));
      if KnownKey(requests, sourceId, key) {
        var known :| known in requests && requests[known].sourceId == sourceId && requests[known].idempotencyKey == key;
        var mine := set d | d in deliveries && deliveries[d].requestId == known;
        RowsOfLead(world.lanes, known);
        return Accepted(known, true, requests[known].receivedAt, |mine|);
      }
      requests := requests[requestId := Request(sourceId, key, payload, now)];
      var added;
      deliveries, journal, added := InsertAll(deliveries, journal, now, requestId, unique, ids, world.lanes);
      NewLeadRows(settings, world, requestId, unique, ids, added);
      world := w';
      return Accepted(requestId, false, now, |added|);
    }

    /** Adds recipients to a known lead; None when there is no such lead. */
    method AttachRecipients(requestId: Id, recipients: seq<Recipient>, now: Time, ids: seq<Id>)
      returns (r: Option<Attached>)
      requires Valid() && now == world.now
      requires Enabled(settings, world, Attach(requestId, recipients, ids))
      modifies this`deliveries, this`journal, this`world
      ensures Valid()
      ensures world == Apply(settings, old(world), Attach(requestId, recipients, ids))
      ensures r.None? <==> requestId !in requests
      ensures r.Some? ==>
                && r.value.requestId == requestId && |r.value.ids| == r.value.added
                && (forall d :: d in r.value.ids <==> d in deliveries && d !in old(deliveries))
                && r.value.added == |Intake.UrlsOf(recipients) - Intake.Addresses(old(world).lanes, requestId)|
                && r.value.alreadyPresent == |Intake.UrlsOf(recipients) * Intake.Addresses(old(world).lanes, requestId)|
    {
      var unique := DedupeRecipients(recipients);
      ghost var e := Attach(requestId, recipients, ids);
      EventKeeps(settings, world, e);
      ghost var w' := Apply(settings, world, e);
      if requestId !in requests {
        return None;
      }
      Intake.AttachCounts(settings, world, requestId, recipients, ids);
      var added;
      deliveries, journal, added := InsertAll(deliveries, journal, now, requestId, unique, ids, world.lanes);
      AddedBelong(world.lanes, now, requestId, unique, ids, added);
      world := w';
      return Some(Attached(requestId, |added|, |unique| - |added|, added));
    }
  }
}
