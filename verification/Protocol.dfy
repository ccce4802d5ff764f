// The whole service as a state machine: one clock, the accepted leads, one lane per
// delivery, and every transaction of every worker, client and operator as one event.
// Everything the environment decides - ids, ties, locks, draws, answers - is in the event.

module Protocol {
  import opened Types
  import opened Config
  import opened Rows
  import opened Lanes
  import opened Faults
  import opened Punctual
  import opened Wire
  import ClaimQuery
  import Requeue
  import Sender

  datatype World = World(now: Time, requests: map<Id, Request>, lanes: map<Id, Lane>)

  datatype Event =
    | Tick(to: Time)
    | Accept(sourceId: string, key: string, payload: string, recipients: seq<Recipient>, requestId: Id, ids: seq<Id>)
    | Attach(requestId: Id, recipients: seq<Recipient>, ids: seq<Id>)
    | ClaimBatch(worker: WorkerId, limit: int, snapshot: ClaimQuery.Table, window: set<Id>, locked: set<Id>,
                 picks: set<Id>)
    | SendStart(d: Id, n: nat)
    | SendEnd(d: Id, n: nat)
    | Report(d: Id, n: nat, response: Sender.Response, draw: real)
    | Abandon(gone: set<(Id, nat)>)
    | ManualRetry(filter: Requeue.Filter, cap: Option<nat>, includeDelivered: bool, locked: set<Id>, sel: set<Id>)

  function Initial(t: Time): World {
    World(t, map[], map[])
  }

  /** The deliveries table. */
  function RowsOf(lanes: map<Id, Lane>): ClaimQuery.Table {
    map d | d in lanes :: lanes[d].row
  }

  function Table(w: World): ClaimQuery.Table {
    RowsOf(w.lanes)
  }

  // --- intake -------------------------------------------------------------------------

  predicate Mentions(rs: seq<Recipient>, url: string) {
    exists i :: 0 <= i < |rs| && rs[i].url == url
  }

  /** The same URL listed twice is one recipient; the first mention wins. */
  function Dedupe(rs: seq<Recipient>): seq<Recipient> {
    if rs == [] then []
    else
      var unique := Dedupe(rs[..|rs| - 1]);
      var r := rs[|rs| - 1];
      if Mentions(unique, r.url) then unique else unique + [r]
  }

  predicate Queued(lanes: map<Id, Lane>, requestId: Id, url: string) {
    exists d :: d in lanes && lanes[d].row.requestId == requestId && lanes[d].row.url == url
  }

  /** ON CONFLICT (request_id, recipient_url) DO NOTHING. */
  function InsertOne(lanes: map<Id, Lane>, now: Time, requestId: Id, r: Recipient, id: Id): map<Id, Lane> {
    if Queued(lanes, requestId, r.url) then lanes else lanes[id := NewLane(id, NewRow(requestId, r, now))]
  }

  function InsertDeliveries(lanes: map<Id, Lane>, now: Time, requestId: Id, rs: seq<Recipient>, ids: seq<Id>)
    : map<Id, Lane>
    requires |rs| == |ids|
  {
    if rs == [] then lanes
    else
      var n := |rs| - 1;
      InsertOne(InsertDeliveries(lanes, now, requestId, rs[..n], ids[..n]), now, requestId, rs[n], ids[n])
  }

  predicate KnownKey(requests: map<Id, Request>, sourceId: string, key: string) {
    exists r :: r in requests && requests[r].sourceId == sourceId && requests[r].idempotencyKey == key
  }

  /** Generated ids never collide with each other or with ids in use. */
  predicate FreshIds(lanes: map<Id, Lane>, ids: seq<Id>) {
    && (forall i :: 0 <= i < |ids| ==> ids[i] !in lanes)
    && (forall i, j :: 0 <= i < j < |ids| ==> ids[i] != ids[j])
  }

  // --- one event -----------------------------------------------------------------------

  /** What an event does to delivery d. */
  ghost function DeedOf(w: World, e: Event, d: Id): Deed
    requires d in w.lanes
  {
    match e
    case ClaimBatch(worker, _, _, _, _, picks) =>
      var rid := w.lanes[d].row.requestId;
      if d in picks && rid in w.requests then Take(worker, w.requests[rid]) else Idle
    case SendStart(id, n) => if id == d then StartSend(n) else Idle
    case SendEnd(id, n) => if id == d then EndSend(n) else Idle
    case Report(id, n, response, draw) => if id == d then Record(n, response, draw) else Idle
    case Abandon(gone) => Forget(set k | k in gone && k.0 == d :: k.1)
    case ManualRetry(_, _, all, _, sel) => if d in sel then Reset(all) else Idle
    case _ => Idle
  }

  ghost predicate Possible(s: Settings, w: World, e: Event, d: Id)
    requires d in w.lanes
  {
    Can(s, w.now, w.lanes[d], DeedOf(w, e, d))
  }

  /** The event may happen now. */
  ghost predicate Enabled(s: Settings, w: World, e: Event) {
    && (forall d {:trigger Possible(s, w, e, d)} :: d in w.lanes ==> Possible(s, w, e, d))
    && match e
       case Tick(to) => w.now <= to && forall d :: d in w.lanes ==> MayWait(s, to, w.lanes[d])
       case Accept(_, _, _, rs, rid, ids) => rid !in w.requests && |ids| == |Dedupe(rs)| && FreshIds(w.lanes, ids)
       case Attach(_, rs, ids) => |ids| == |Dedupe(rs)| && FreshIds(w.lanes, ids)
       case ClaimBatch(_, limit, snapshot, window, locked, picks) =>
         ClaimQuery.LegalClaim(s, Table(w), w.now, limit, snapshot, window, locked, picks)
       case SendStart(d, _) => d in w.lanes
       case SendEnd(d, _) => d in w.lanes
       case Report(d, _, _, _) => d in w.lanes
       case Abandon(_) => true
       case ManualRetry(f, cap, _, locked, sel) => Requeue.LegalSelection(w.requests, Table(w), f, cap, locked, sel)
  }

  /** Delivery d after an event that is not an intake event. */
  ghost function Next(s: Settings, w: World, e: Event, d: Id): Lane
    requires Enabled(s, w, e) && d in w.lanes
  {
    assert Possible(s, w, e, d);
    Do(s, w.now, w.lanes[d], DeedOf(w, e, d))
  }

  ghost function Apply(s: Settings, w: World, e: Event): World
    requires Enabled(s, w, e)
  {
    match e
    case Tick(to) => w.(now := to)
    case Accept(source, key, payload, rs, rid, ids) =>
      if KnownKey(w.requests, source, key) then w
      else w.(requests := w.requests[rid := Request(source, key, payload, w.now)],
              lanes := InsertDeliveries(w.lanes, w.now, rid, Dedupe(rs), ids))
    case Attach(rid, rs, ids) =>
      if rid !in w.requests then w
      else w.(lanes := InsertDeliveries(w.lanes, w.now, rid, Dedupe(rs), ids))
    case _ => w.(lanes := map d | d in w.lanes :: Next(s, w, e, d))
  }

  /** A legal claim never asks a lane for something it cannot do. */
  lemma LegalClaimsAreEnabled(s: Settings, w: World, e: Event)
    requires e.ClaimBatch?
    requires ClaimQuery.LegalClaim(s, Table(w), w.now, e.limit, e.snapshot, e.window, e.locked, e.picks)
    ensures Enabled(s, w, e)
  {
  }

  // --- runs ------------------------------------------------------------------------------

  type Run = seq<Event>

  ghost predicate Legal(s: Settings, w: World, es: Run)
    decreases |es|
  {
    es == [] || (Enabled(s, w, es[0]) && Legal(s, Apply(s, w, es[0]), es[1..]))
  }

  ghost function Exec(s: Settings, w: World, es: Run): World
    requires Legal(s, w, es)
    decreases |es|
  {
    if es == [] then w else Exec(s, Apply(s, w, es[0]), es[1..])
  }

  ghost predicate TimelyAt(s: Settings, w: World, e: Event, d: Id)
    requires Enabled(s, w, e) && d in w.lanes
  {
    assert Possible(s, w, e, d);
    Timely(s, w.now, w.lanes[d], DeedOf(w, e, d))
  }

  ghost predicate PromptAt(s: Settings, w: World, e: Event, d: Id)
    requires Enabled(s, w, e) && d in w.lanes
  {
    assert Possible(s, w, e, d);
    Prompt(s, w.now, w.lanes[d], DeedOf(w, e, d))
  }

  /** Every report in the run is made strictly before its claim's lease runs out. */
  ghost predicate AllTimely(s: Settings, w: World, es: Run)
    requires Legal(s, w, es)
    decreases |es|
  {
    es == [] || ((forall d {:trigger TimelyAt(s, w, es[0], d)} :: d in w.lanes ==> TimelyAt(s, w, es[0], d))
                 && AllTimely(s, Apply(s, w, es[0]), es[1..]))
  }

  /** Every request goes out early enough to end within the lease of its claim. */
  ghost predicate AllPrompt(s: Settings, w: World, es: Run)
    requires Legal(s, w, es)
    decreases |es|
  {
    es == [] || ((forall d {:trigger PromptAt(s, w, es[0], d)} :: d in w.lanes ==> PromptAt(s, w, es[0], d))
                 && AllPrompt(s, Apply(s, w, es[0]), es[1..]))
  }

  /** The event is a report that commits a fault. */
  predicate Faulty(fault: Fault, s: Settings, w: World, e: Event) {
    e.Report? && e.d in w.lanes && Commits(fault, s, w.now, w.lanes[e.d], Record(e.n, e.response, e.draw))
  }

  /** No report of the run commits the fault. */
  ghost predicate Free(fault: Fault, s: Settings, w: World, es: Run)
    requires Legal(s, w, es)
    decreases |es|
  {
    es == [] || (!Faulty(fault, s, w, es[0]) && Free(fault, s, Apply(s, w, es[0]), es[1..]))
  }

  // --- what every event keeps --------------------------------------------------------------

  ghost predicate SameKey(requests: map<Id, Request>, a: Id, b: Id)
    requires a in requests && b in requests
  {
    requests[a].sourceId == requests[b].sourceId && requests[a].idempotencyKey == requests[b].idempotencyKey
  }

  /** The UNIQUE constraint on (source_id, idempotency_key). */
  ghost predicate UniqueKeys(requests: map<Id, Request>) {
    forall a, b {:trigger SameKey(requests, a, b)} :: a in requests && b in requests && SameKey(requests, a, b) ==>
      a == b
  }

  ghost predicate SameTarget(lanes: map<Id, Lane>, a: Id, b: Id)
    requires a in lanes && b in lanes
  {
    lanes[a].row.requestId == lanes[b].row.requestId && lanes[a].row.url == lanes[b].row.url
  }

  /** The UNIQUE constraint on (request_id, recipient_url). */
  ghost predicate UniqueUrls(lanes: map<Id, Lane>) {
    forall a, b {:trigger SameTarget(lanes, a, b)} :: a in lanes && b in lanes && SameTarget(lanes, a, b) ==> a == b
  }

  ghost predicate LaneAt(s: Settings, w: World, d: Id)
    requires d in w.lanes
  {
    var lane := w.lanes[d];
    && lane.id == d
    && lane.row.requestId in w.requests
    && LaneInv(s, w.now, w.requests[lane.row.requestId], lane)
  }

  ghost predicate WorldInv(s: Settings, w: World) {
    && UniqueKeys(w.requests)
    && UniqueUrls(w.lanes)
    && forall d {:trigger LaneAt(s, w, d)} :: d in w.lanes ==> LaneAt(s, w, d)
  }

  /** Existing deliveries are never renamed, re-addressed or dropped by any event. */
  lemma EventKeepsLane(s: Settings, w: World, e: Event, d: Id)
    requires Validated(s) && d in w.lanes && LaneAt(s, w, d) && Enabled(s, w, e)
    ensures Possible(s, w, e, d)
    ensures d in Apply(s, w, e).lanes && LaneAt(s, Apply(s, w, e), d)
    ensures Apply(s, w, e).lanes[d] == if e.Tick? || e.Accept? || e.Attach? then w.lanes[d] else Next(s, w, e, d)
    ensures SameIdentity(w.lanes[d].row, Apply(s, w, e).lanes[d].row)
  {
    var lane := w.lanes[d];
    var request := w.requests[lane.row.requestId];
    assert Possible(s, w, e, d);
    match e
    case Tick(to) => WaitKeeps(s, w.now, to, request, lane);
    case Accept(_, _, _, rs, rid, ids) => InsertFrames(w.lanes, w.now, rid, Dedupe(rs), ids);
    case Attach(rid, rs, ids) => InsertFrames(w.lanes, w.now, rid, Dedupe(rs), ids);
    case _ =>
      DeedKeeps(s, w.now, request, lane, DeedOf(w, e, d));
      DeedSameIdentity(s, w.now, lane, DeedOf(w, e, d));
  }

  ghost predicate SameIdentity(a: Delivery, b: Delivery) {
    && a.requestId == b.requestId && a.createdAt == b.createdAt
    && a.url == b.url && a.name == b.name && a.origin == b.origin
  }

  lemma DeedSameIdentity(s: Settings, now: Time, lane: Lane, deed: Deed)
    requires Can(s, now, lane, deed)
    ensures SameIdentity(lane.row, Do(s, now, lane, deed).row) && Do(s, now, lane, deed).id == lane.id
  {
  }

  lemma {:induction false} InsertFrames(lanes: map<Id, Lane>, now: Time, rid: Id, rs: seq<Recipient>, ids: seq<Id>)
    requires |rs| == |ids| && FreshIds(lanes, ids)
    ensures var lanes' := InsertDeliveries(lanes, now, rid, rs, ids);
            && (forall d :: d in lanes ==> d in lanes' && lanes'[d] == lanes[d])
            && (forall d :: d in lanes' ==> d in lanes || d in ids)
            && (forall d :: d in lanes' && d !in lanes ==>
                  exists r :: r in rs && lanes'[d] == NewLane(d, NewRow(rid, r, now)))
  {
    if rs != [] {
      var n := |rs| - 1;
      InsertFrames(lanes, now, rid, rs[..n], ids[..n]);
      assert ids[n] in ids && rs[n] in rs;
    }
  }

  lemma InsertOneKeepsUnique(lanes: map<Id, Lane>, now: Time, rid: Id, r: Recipient, id: Id)
    requires UniqueUrls(lanes)
    ensures UniqueUrls(InsertOne(lanes, now, rid, r, id))
  {
    var lanes' := InsertOne(lanes, now, rid, r, id);
    forall a, b | a in lanes' && b in lanes' && SameTarget(lanes', a, b) ensures a == b {
      if a in lanes && b in lanes && a != id && b != id { assert SameTarget(lanes, a, b); }
    }
  }

  lemma {:induction false} InsertKeepsUnique(lanes: map<Id, Lane>, now: Time, rid: Id, rs: seq<Recipient>, ids: seq<Id>)
    requires |rs| == |ids| && FreshIds(lanes, ids) && UniqueUrls(lanes)
    ensures UniqueUrls(InsertDeliveries(lanes, now, rid, rs, ids))
  {
    if rs != [] {
      var n := |rs| - 1;
      InsertKeepsUnique(lanes, now, rid, rs[..n], ids[..n]);
      InsertOneKeepsUnique(InsertDeliveries(lanes, now, rid, rs[..n], ids[..n]), now, rid, rs[n], ids[n]);
    }
  }

  lemma NewKeyIsUnique(requests: map<Id, Request>, rid: Id, r: Request)
    requires UniqueKeys(requests) && rid !in requests && !KnownKey(requests, r.sourceId, r.idempotencyKey)
    ensures UniqueKeys(requests[rid := r])
  {
    var requests' := requests[rid := r];
    forall a, b | a in requests' && b in requests' && SameKey(requests', a, b) ensures a == b {
      if a in requests && b in requests { assert SameKey(requests, a, b); }
    }
  }

  lemma IntakeKeeps(s: Settings, w: World, e: Event)
    requires Validated(s) && WorldInv(s, w) && Enabled(s, w, e) && (e.Accept? || e.Attach?)
    ensures WorldInv(s, Apply(s, w, e))
  {
    var w' := Apply(s, w, e);
    var rs := Dedupe(e.recipients);
    InsertFrames(w.lanes, w.now, e.requestId, rs, e.ids);
    InsertKeepsUnique(w.lanes, w.now, e.requestId, rs, e.ids);
    if e.Accept? && !KnownKey(w.requests, e.sourceId, e.key) {
      NewKeyIsUnique(w.requests, e.requestId, Request(e.sourceId, e.key, e.payload, w.now));
    }
    forall d | d in w'.lanes ensures LaneAt(s, w', d) {
      if d in w.lanes {
        EventKeepsLane(s, w, e, d);
      } else {
        var r :| r in rs && w'.lanes[d] == NewLane(d, NewRow(e.requestId, r, w.now));
        NewLaneInv(s, w.now, w'.requests[e.requestId], d, e.requestId, r);
      }
    }
  }

  /** Every event of the service keeps the global invariant. */
  lemma EventKeeps(s: Settings, w: World, e: Event)
    requires Validated(s) && WorldInv(s, w) && Enabled(s, w, e)
    ensures WorldInv(s, Apply(s, w, e))
  {
    if e.Accept? || e.Attach? {
      IntakeKeeps(s, w, e);
    } else {
      var w' := Apply(s, w, e);
      forall d | d in w.lanes
          ensures d in w'.lanes && LaneAt(s, w', d) && SameIdentity(w.lanes[d].row, w'.lanes[d].row) {
        assert LaneAt(s, w, d);
        EventKeepsLane(s, w, e, d);
      }
      forall a, b | a in w'.lanes && b in w'.lanes && SameTarget(w'.lanes, a, b) ensures a == b {
        assert SameTarget(w.lanes, a, b);
      }
    }
  }

  /** Hence every reachable state satisfies it. */
  lemma {:induction false} RunKeeps(s: Settings, w: World, es: Run)
    requires Validated(s) && WorldInv(s, w) && Legal(s, w, es)
    ensures WorldInv(s, Exec(s, w, es))
    decreases |es|
  {
    if es != [] {
      EventKeeps(s, w, es[0]);
      RunKeeps(s, Apply(s, w, es[0]), es[1..]);
    }
  }
}
