// Accepting leads: the tables refine a first-write-wins book of leads.

module Intake {
  import opened Types
  import opened Config
  import opened Rows
  import opened Lanes
  import opened Protocol
  import ClaimQuery

  /** What a lead amounts to: who it is, its first payload, and where it goes. */
  datatype Lead = Lead(requestId: Id, payload: string, urls: set<string>)

  type Book = map<(string, string), Lead>

  function UrlsOf(rs: seq<Recipient>): set<string> {
    set r | r in rs :: r.url
  }

  /** The specification: the first accept of a key writes, attaches add, nothing else counts. */
  function Write(book: Book, e: Event): Book {
    match e
    case Accept(source, key, payload, rs, rid, _) =>
      if (source, key) in book then book else book[(source, key) := Lead(rid, payload, UrlsOf(rs))]
    case Attach(rid, rs, _) =>
      map k | k in book :: if book[k].requestId == rid then book[k].(urls := book[k].urls + UrlsOf(rs)) else book[k]
    case _ => book
  }

  function WriteAll(book: Book, es: Run): Book
    decreases |es|
  {
    if es == [] then book else WriteAll(Write(book, es[0]), es[1..])
  }

  /** The deliveries of one lead, and their addresses. */
  ghost function DeliveriesOf(lanes: map<Id, Lane>, rid: Id): set<Id> {
    set d | d in lanes && lanes[d].row.requestId == rid
  }

  ghost function Addresses(lanes: map<Id, Lane>, rid: Id): set<string> {
    set d | d in DeliveriesOf(lanes, rid) :: lanes[d].row.url
  }

  function KeyOf(r: Request): (string, string) {
    (r.sourceId, r.idempotencyKey)
  }

  ghost predicate Refines(w: World, book: Book) {
    && (forall rid :: rid in w.requests ==>
          var k := KeyOf(w.requests[rid]);
          k in book && book[k] == Lead(rid, w.requests[rid].payload, Addresses(w.lanes, rid)))
    && (forall k :: k in book ==> book[k].requestId in w.requests && KeyOf(w.requests[book[k].requestId]) == k)
  }

  // --- deduplication ------------------------------------------------------------------

  /** An entry of the list before which its address does not occur. */
  ghost predicate FirstMention(rs: seq<Recipient>, r: Recipient) {
    exists k :: 0 <= k < |rs| && rs[k] == r && !Mentions(rs[..k], r.url)
  }

  lemma {:induction false} DedupeKeepsFirsts(rs: seq<Recipient>, i: nat)
    requires i < |Dedupe(rs)|
    ensures FirstMention(rs, Dedupe(rs)[i])
  {
    var n := |rs| - 1;
    var prefix := rs[..n];
    if i < |Dedupe(prefix)| {
      DedupeKeepsFirsts(prefix, i);
      var r := Dedupe(prefix)[i];
      var k :| 0 <= k < |prefix| && prefix[k] == r && !Mentions(prefix[..k], r.url);
      assert rs[..k] == prefix[..k] && rs[k] == r;
    } else {
      DedupeUrls(prefix);
      MentionsIsMembership(prefix, rs[n].url);
      MentionsIsMembership(Dedupe(prefix), rs[n].url);
      assert rs[n] == Dedupe(rs)[i] && !Mentions(rs[..n], rs[n].url);
    }
  }

  lemma {:induction false} DedupeUrls(rs: seq<Recipient>)
    ensures UrlsOf(Dedupe(rs)) == UrlsOf(rs)
    ensures forall i, j :: 0 <= i < j < |Dedupe(rs)| ==> Dedupe(rs)[i].url != Dedupe(rs)[j].url
  {
    if rs != [] {
      var n := |rs| - 1;
      var prefix := rs[..n];
      DedupeUrls(prefix);
      MentionsIsMembership(Dedupe(prefix), rs[n].url);
      AppendUrls(prefix, rs[n]);
      AppendUrls(Dedupe(prefix), rs[n]);
      assert rs == prefix + [rs[n]];
    }
  }

  /** Deduplication keeps every address, each once, and each as it was first mentioned. */
  lemma DedupeIsFirstMention(rs: seq<Recipient>)
    ensures UrlsOf(Dedupe(rs)) == UrlsOf(rs)
    ensures forall i, j :: 0 <= i < j < |Dedupe(rs)| ==> Dedupe(rs)[i].url != Dedupe(rs)[j].url
    ensures forall i :: 0 <= i < |Dedupe(rs)| ==> FirstMention(rs, Dedupe(rs)[i])
  {
    DedupeUrls(rs);
    forall i | 0 <= i < |Dedupe(rs)| ensures FirstMention(rs, Dedupe(rs)[i]) {
      DedupeKeepsFirsts(rs, i);
    }
  }

  lemma MentionsIsMembership(rs: seq<Recipient>, url: string)
    ensures Mentions(rs, url) <==> url in UrlsOf(rs)
  {
    if url in UrlsOf(rs) {
      var r :| r in rs && r.url == url;
      var i :| 0 <= i < |rs| && rs[i] == r;
    }
    if Mentions(rs, url) {
      var i :| 0 <= i < |rs| && rs[i].url == url;
      assert rs[i] in rs;
    }
  }

  lemma AppendUrls(rs: seq<Recipient>, r: Recipient)
    ensures UrlsOf(rs + [r]) == UrlsOf(rs) + {r.url}
  {
    forall u | u in UrlsOf(rs) + {r.url} ensures u in UrlsOf(rs + [r]) {
      if u in UrlsOf(rs) {
        var x :| x in rs && x.url == u;
        assert x in rs + [r];
      } else {
        assert r in rs + [r];
      }
    }
  }

  // --- insertion -----------------------------------------------------------------------

  lemma QueuedIsAddress(lanes: map<Id, Lane>, rid: Id, url: string)
    ensures Queued(lanes, rid, url) <==> url in Addresses(lanes, rid)
  {
    if Queued(lanes, rid, url) {
      var d :| d in lanes && lanes[d].row.requestId == rid && lanes[d].row.url == url;
      assert d in DeliveriesOf(lanes, rid);
    }
  }

  lemma AddRow(lanes: map<Id, Lane>, id: Id, lane: Lane, rid: Id)
    requires id !in lanes
    ensures DeliveriesOf(lanes[id := lane], rid)
         == DeliveriesOf(lanes, rid) + (if lane.row.requestId == rid then {id} else {})
  {
  }

  lemma AddAddress(lanes: map<Id, Lane>, id: Id, lane: Lane, rid: Id)
    requires id !in lanes
    ensures Addresses(lanes[id := lane], rid)
         == Addresses(lanes, rid) + (if lane.row.requestId == rid then {lane.row.url} else {})
  {
    var lanes' := lanes[id := lane];
    AddRow(lanes, id, lane, rid);
    forall u | u in Addresses(lanes, rid) ensures u in Addresses(lanes', rid) {
      var d :| d in DeliveriesOf(lanes, rid) && lanes[d].row.url == u;
      assert d in DeliveriesOf(lanes', rid) && lanes'[d] == lanes[d];
    }
    if lane.row.requestId == rid { assert id in DeliveriesOf(lanes', rid); }
  }

  lemma InsertOneAddresses(lanes: map<Id, Lane>, now: Time, rid: Id, r: Recipient, id: Id, other: Id)
    requires id !in lanes
    ensures Addresses(InsertOne(lanes, now, rid, r, id), other)
         == Addresses(lanes, other) + (if other == rid then {r.url} else {})
  {
    QueuedIsAddress(lanes, rid, r.url);
    AddAddress(lanes, id, NewLane(id, NewRow(rid, r, now)), other);
  }

  /** Inserting recipients adds exactly their addresses to the lead. */
  lemma {:induction false} InsertAddresses(lanes: map<Id, Lane>, now: Time, rid: Id, rs: seq<Recipient>, ids: seq<Id>)
    requires |rs| == |ids| && FreshIds(lanes, ids)
    ensures Addresses(InsertDeliveries(lanes, now, rid, rs, ids), rid) == Addresses(lanes, rid) + UrlsOf(rs)
  {
    if rs == [] {
      assert UrlsOf(rs) == {};
    } else {
      var n := |rs| - 1;
      InsertAddresses(lanes, now, rid, rs[..n], ids[..n]);
      InsertFrames(lanes, now, rid, rs[..n], ids[..n]);
      InsertOneAddresses(InsertDeliveries(lanes, now, rid, rs[..n], ids[..n]), now, rid, rs[n], ids[n], rid);
      AppendUrls(rs[..n], rs[n]);
      assert rs == rs[..n] + [rs[n]];
    }
  }

  /** Other leads keep their deliveries. */
  lemma {:induction false} InsertElsewhere(lanes: map<Id, Lane>, now: Time, rid: Id, rs: seq<Recipient>,
                                           ids: seq<Id>, other: Id)
    requires |rs| == |ids| && FreshIds(lanes, ids) && other != rid
    ensures Addresses(InsertDeliveries(lanes, now, rid, rs, ids), other) == Addresses(lanes, other)
  {
    if rs != [] {
      var n := |rs| - 1;
      InsertElsewhere(lanes, now, rid, rs[..n], ids[..n], other);
      InsertFrames(lanes, now, rid, rs[..n], ids[..n]);
      InsertOneAddresses(InsertDeliveries(lanes, now, rid, rs[..n], ids[..n]), now, rid, rs[n], ids[n], other);
    }
  }

  // --- refinement ------------------------------------------------------------------------

  lemma EventRefines(s: Settings, w: World, e: Event, book: Book)
    requires Validated(s) && WorldInv(s, w) && Enabled(s, w, e) && Refines(w, book)
    ensures Refines(Apply(s, w, e), Write(book, e))
  {
    match e
    case Accept(_, _, _, _, _, _) => AcceptRefines(s, w, e, book);
    case Attach(_, _, _) => AttachRefines(s, w, e, book);
    case _ =>
      forall rid ensures Addresses(Apply(s, w, e).lanes, rid) == Addresses(w.lanes, rid) {
        SameAddresses(s, w, e, rid);
      }
  }

  lemma SameAddresses(s: Settings, w: World, e: Event, rid: Id)
    requires Validated(s) && WorldInv(s, w) && Enabled(s, w, e) && !e.Accept? && !e.Attach?
    ensures Addresses(Apply(s, w, e).lanes, rid) == Addresses(w.lanes, rid)
  {
    var w' := Apply(s, w, e);
    forall d | d in w.lanes ensures SameIdentity(w.lanes[d].row, w'.lanes[d].row) {
      assert LaneAt(s, w, d);
      EventKeepsLane(s, w, e, d);
    }
    assert DeliveriesOf(w'.lanes, rid) == DeliveriesOf(w.lanes, rid);
  }

  lemma UnknownKey(w: World, book: Book, source: string, key: string)
    requires Refines(w, book)
    ensures KnownKey(w.requests, source, key) <==> (source, key) in book
  {
    if (source, key) in book {
      assert book[(source, key)].requestId in w.requests;
    }
  }

  lemma NoDeliveriesYet(s: Settings, w: World, rid: Id)
    requires WorldInv(s, w) && rid !in w.requests
    ensures DeliveriesOf(w.lanes, rid) == {} && Addresses(w.lanes, rid) == {}
  {
    forall d | d in w.lanes ensures w.lanes[d].row.requestId != rid {
      assert LaneAt(s, w, d);
    }
  }

  lemma AcceptRefines(s: Settings, w: World, e: Event, book: Book)
    requires Validated(s) && WorldInv(s, w) && Enabled(s, w, e) && Refines(w, book) && e.Accept?
    ensures Refines(Apply(s, w, e), Write(book, e))
  {
    UnknownKey(w, book, e.sourceId, e.key);
    if !KnownKey(w.requests, e.sourceId, e.key) {
      var w' := Apply(s, w, e);
      NoDeliveriesYet(s, w, e.requestId);
      DedupeIsFirstMention(e.recipients);
      InsertAddresses(w.lanes, w.now, e.requestId, Dedupe(e.recipients), e.ids);
      assert Addresses(w'.lanes, e.requestId) == UrlsOf(e.recipients);
      forall rid | rid in w.requests ensures Addresses(w'.lanes, rid) == Addresses(w.lanes, rid) {
        InsertElsewhere(w.lanes, w.now, e.requestId, Dedupe(e.recipients), e.ids, rid);
      }
      NewLead(w, w', book, e.requestId);
    }
  }

  lemma NewLead(w: World, w': World, book: Book, id: Id)
    requires Refines(w, book) && id !in w.requests && id in w'.requests
    requires w'.requests == w.requests[id := w'.requests[id]]
    requires KeyOf(w'.requests[id]) !in book
    requires forall rid :: rid in w.requests ==> Addresses(w'.lanes, rid) == Addresses(w.lanes, rid)
    ensures Refines(w', book[KeyOf(w'.requests[id]) := Lead(id, w'.requests[id].payload, Addresses(w'.lanes, id))])
  {
  }

  lemma AttachRefines(s: Settings, w: World, e: Event, book: Book)
    requires Validated(s) && WorldInv(s, w) && Enabled(s, w, e) && Refines(w, book) && e.Attach?
    ensures Refines(Apply(s, w, e), Write(book, e))
  {
    if e.requestId in w.requests {
      var w' := Apply(s, w, e);
      DedupeIsFirstMention(e.recipients);
      InsertAddresses(w.lanes, w.now, e.requestId, Dedupe(e.recipients), e.ids);
      forall rid | rid in w.requests && rid != e.requestId ensures Addresses(w'.lanes, rid) == Addresses(w.lanes, rid) {
        InsertElsewhere(w.lanes, w.now, e.requestId, Dedupe(e.recipients), e.ids, rid);
      }
    } else {
      assert Write(book, e) == book;
    }
  }

  /** Over any run there is one lead per key with its first payload, and its deliveries go to
      the addresses of its first accept and those attached later - each exactly once. */
  lemma {:induction false} IntakeIsFirstWriteWins(s: Settings, w: World, es: Run, book: Book)
    requires Validated(s) && WorldInv(s, w) && Legal(s, w, es) && Refines(w, book)
    ensures Refines(Exec(s, w, es), WriteAll(book, es))
    decreases |es|
  {
    if es != [] {
      EventKeeps(s, w, es[0]);
      EventRefines(s, w, es[0], book);
      IntakeIsFirstWriteWins(s, Apply(s, w, es[0]), es[1..], Write(book, es[0]));
    }
  }

  /** A new delivery carries the name and origin of the first mention of its address, is due
      at once and has nothing attempted. */
  lemma NewDeliveryIsFirstMention(s: Settings, w: World, e: Event, d: Id)
    requires WorldInv(s, w) && Enabled(s, w, e) && (e.Accept? || e.Attach?)
    requires d in Apply(s, w, e).lanes && d !in w.lanes
    ensures var lane := Apply(s, w, e).lanes[d];
            && lane.row.status == Pending && lane.row.attempts == lane.row.totalAttempts == 0
            && lane.row.createdAt == lane.row.nextAttemptAt == lane.row.claimableAt == w.now
            && lane.journal == map[] && lane.tokens == []
            && lane.row.requestId == e.requestId
            && FirstMention(e.recipients, Recipient(lane.row.url, lane.row.name, lane.row.origin))
  {
    var unique := Dedupe(e.recipients);
    InsertFrames(w.lanes, w.now, e.requestId, unique, e.ids);
    var r :| r in unique && Apply(s, w, e).lanes[d] == NewLane(d, NewRow(e.requestId, r, w.now));
    var i :| 0 <= i < |unique| && unique[i] == r;
    DedupeIsFirstMention(e.recipients);
  }

  /** One delivery per address: counting rows is counting addresses. */
  lemma EachAddressOnce(lanes: map<Id, Lane>, rid: Id)
    requires UniqueUrls(lanes)
    ensures |DeliveriesOf(lanes, rid)| == |Addresses(lanes, rid)|
  {
    forall a, b | a in DeliveriesOf(lanes, rid) && b in DeliveriesOf(lanes, rid) && lanes[a].row.url == lanes[b].row.url
      ensures a == b
    {
      assert SameTarget(lanes, a, b);
    }
    ImageSize(lanes, DeliveriesOf(lanes, rid));
  }

  lemma {:induction false} ImageSize(lanes: map<Id, Lane>, ds: set<Id>)
    requires ds <= lanes.Keys
    requires forall a, b :: a in ds && b in ds && lanes[a].row.url == lanes[b].row.url ==> a == b
    ensures |set d | d in ds :: lanes[d].row.url| == |ds|
    decreases |ds|
  {
    if ds != {} {
      var x := ClaimQuery.AnyOf(ds);
      ImageSize(lanes, ds - {x});
      var rest := set d | d in ds - {x} :: lanes[d].row.url;
      assert (set d | d in ds :: lanes[d].row.url) == rest + {lanes[x].row.url};
    }
  }

  /** What an attach reports: addresses that were missing are added, the rest were present. */
  lemma AttachCounts(s: Settings, w: World, rid: Id, rs: seq<Recipient>, ids: seq<Id>)
    requires WorldInv(s, w) && |ids| == |Dedupe(rs)| && FreshIds(w.lanes, ids)
    ensures var lanes' := InsertDeliveries(w.lanes, w.now, rid, Dedupe(rs), ids);
            var added := |DeliveriesOf(lanes', rid)| - |DeliveriesOf(w.lanes, rid)|;
            && added == |UrlsOf(rs) - Addresses(w.lanes, rid)|
            && |Dedupe(rs)| - added == |UrlsOf(rs) * Addresses(w.lanes, rid)|
  {
    var lanes' := InsertDeliveries(w.lanes, w.now, rid, Dedupe(rs), ids);
    DedupeIsFirstMention(rs);
    DistinctUrls(Dedupe(rs));
    InsertAddresses(w.lanes, w.now, rid, Dedupe(rs), ids);
    InsertKeepsUnique(w.lanes, w.now, rid, Dedupe(rs), ids);
    EachAddressOnce(w.lanes, rid);
    EachAddressOnce(lanes', rid);
    PartsAdd(UrlsOf(rs), Addresses(w.lanes, rid));
    UnionGrows(Addresses(w.lanes, rid), UrlsOf(rs));
  }

  lemma UnionGrows(a: set<string>, b: set<string>)
    ensures |a + b| - |a| == |b - a|
  {
    assert a + b == a + (b - a);
  }

  lemma PartsAdd(a: set<string>, b: set<string>)
    ensures |a - b| + |a * b| == |a|
  {
    assert (a - b) + (a * b) == a;
  }

  lemma {:induction false} DistinctUrls(rs: seq<Recipient>)
    requires forall i, j :: 0 <= i < j < |rs| ==> rs[i].url != rs[j].url
    ensures |UrlsOf(rs)| == |rs|
  {
    if rs == [] {
      assert UrlsOf(rs) == {};
    } else {
      var n := |rs| - 1;
      DistinctUrls(rs[..n]);
      AppendUrls(rs[..n], rs[n]);
      assert rs == rs[..n] + [rs[n]];
      MentionsIsMembership(rs[..n], rs[n].url);
    }
  }
}
