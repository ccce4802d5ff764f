// Manual retry: which rows a filter selects and what happens to each of them.

module Requeue {
  import opened Types
  import opened Rows
  import opened ClaimQuery

  datatype Filter =
    | OneLead(requestId: Id, recipients: seq<string>)
    | Matching(statuses: set<Status>, origin: Option<string>, urls: Option<set<string>>,
               receivedAfter: Option<Time>, receivedBefore: Option<Time>)

  /** The WHERE clause. `urls` is the set of addresses a LIKE pattern accepts. */
  predicate Matches(requests: map<Id, Request>, row: Delivery, f: Filter) {
    match f
    case OneLead(id, recipients) =>
      && row.requestId == id
      && (recipients == [] || row.url in recipients || (row.name.Some? && row.name.value in recipients))
    case Matching(statuses, origin, urls, after, before) =>
      && row.status in statuses
      && (origin.Some? && origin.value != "" ==> row.origin == origin.value)
      && (urls.Some? ==> row.url in urls.value)
      && (after.Some? ==> row.requestId in requests && requests[row.requestId].receivedAt >= after.value)
      && (before.Some? ==> row.requestId in requests && requests[row.requestId].receivedAt <= before.value)
  }

  /** Rows the statement locks: the oldest matching ones up to the cap, skipping locked rows. */
  ghost predicate LegalSelection(requests: map<Id, Request>, ds: Table, f: Filter,
                                 cap: Option<nat>, locked: set<Id>, sel: set<Id>)
  {
    var all := set d | d in ds && Matches(requests, ds[d], f) && d !in locked;
    && sel <= all
    && |sel| == (if cap.Some? then Min(cap.value, |all|) else |all|)
    && forall x, y :: x in sel && y in all - sel ==> ds[x].createdAt <= ds[y].createdAt
  }

  /** Retrying one lead takes all of its unlocked deliveries, or the named ones by address or label, and
      no delivery of any other lead. */
  lemma OneLeadSelects(requests: map<Id, Request>, ds: Table, id: Id, recipients: seq<string>,
                       locked: set<Id>, sel: set<Id>)
    requires LegalSelection(requests, ds, OneLead(id, recipients), None, locked, sel)
    ensures forall d :: d in sel <==>
              && d in ds && d !in locked && ds[d].requestId == id
              && (recipients == [] || ds[d].url in recipients
                  || exists name :: name in recipients && ds[d].name == Some(name))
  {
    var all := set d | d in ds && Matches(requests, ds[d], OneLead(id, recipients)) && d !in locked;
    SameSize(sel, all);
  }

  /** The unlocked deliveries a bulk retry is about, clause by clause. An empty origin is no filter. */
  ghost predicate IsBulkRow(requests: map<Id, Request>, ds: Table, statuses: set<Status>, origin: Option<string>,
                            urls: Option<set<string>>, after: Option<Time>, before: Option<Time>,
                            locked: set<Id>, d: Id)
  {
    && d in ds && d !in locked && ds[d].status in statuses
    && (origin == None || origin == Some("") || origin == Some(ds[d].origin))
    && (urls == None || ds[d].url in urls.value)
    && (after == None || (ds[d].requestId in requests && after.value <= requests[ds[d].requestId].receivedAt))
    && (before == None || (ds[d].requestId in requests && requests[ds[d].requestId].receivedAt <= before.value))
  }

  /** A bulk retry takes the oldest of them, as many as its cap allows. */
  lemma BulkSelects(requests: map<Id, Request>, ds: Table, statuses: set<Status>, origin: Option<string>,
                    urls: Option<set<string>>, after: Option<Time>, before: Option<Time>, cap: nat,
                    locked: set<Id>, sel: set<Id>)
    requires LegalSelection(requests, ds, Matching(statuses, origin, urls, after, before), Some(cap), locked, sel)
    ensures var all := set d | d in ds && IsBulkRow(requests, ds, statuses, origin, urls, after, before, locked, d);
            && sel <= all
            && |sel| == (if cap <= |all| then cap else |all|)
            && forall x, y :: x in sel && y in all && y !in sel ==> ds[x].createdAt <= ds[y].createdAt
  {
    var f := Matching(statuses, origin, urls, after, before);
    assert (set d | d in ds && Matches(requests, ds[d], f) && d !in locked)
        == (set d | d in ds && IsBulkRow(requests, ds, statuses, origin, urls, after, before, locked, d));
  }

  datatype Outcome = Outcome(requeued: set<Id>, skippedInFlight: nat, skippedDelivered: nat)

  function WithAction(ds: Table, sel: set<Id>, includeDelivered: bool, now: Time, a: Action): set<Id>
    requires sel <= ds.Keys
  {
    set d | d in sel && Classify(ds[d], includeDelivered, now) == a
  }

  function OutcomeOf(ds: Table, sel: set<Id>, includeDelivered: bool, now: Time): Outcome
    requires sel <= ds.Keys
  {
    Outcome(WithAction(ds, sel, includeDelivered, now, Requeued),
            |WithAction(ds, sel, includeDelivered, now, SkipInFlight)|,
            |WithAction(ds, sel, includeDelivered, now, SkipDelivered)|)
  }

  /** The three counters account for every selected row exactly once. */
  lemma EverySelectedRowIsCounted(ds: Table, sel: set<Id>, includeDelivered: bool, now: Time)
    requires sel <= ds.Keys
    ensures var o := OutcomeOf(ds, sel, includeDelivered, now);
            |o.requeued| + o.skippedInFlight + o.skippedDelivered == |sel|
  {
    var a := WithAction(ds, sel, includeDelivered, now, Requeued);
    var b := WithAction(ds, sel, includeDelivered, now, SkipInFlight);
    var c := WithAction(ds, sel, includeDelivered, now, SkipDelivered);
    forall d | d in sel ensures d in a + b + c {
      assert Classify(ds[d], includeDelivered, now) in {Requeued, SkipInFlight, SkipDelivered};
    }
    assert sel == a + b + c;
    assert |a + b| == |a| + |b|;
    assert |(a + b) + c| == |a + b| + |c|;
  }

  /** Naming 'delivered' in a bulk filter is the opt-in: nothing is skipped as delivered. */
  lemma BulkSkipsNoDelivered(ds: Table, sel: set<Id>, now: Time)
    requires sel <= ds.Keys
    ensures OutcomeOf(ds, sel, true, now).skippedDelivered == 0
  {
    var none := WithAction(ds, sel, true, now, SkipDelivered);
    forall d ensures d !in none {
    }
  }

  /** What a requeue does to one selected row, and when it leaves the row alone. */
  lemma RequeuedRow(row: Delivery, includeDelivered: bool, now: Time)
    requires row.status == InFlight <==> row.leaseExpiresAt.Some?
    requires row.status == InFlight ==> row.claimableAt == row.leaseExpiresAt.value
    ensures row.status == InFlight ==> (RequeueRow(row, includeDelivered, now) != row <==> Due(row, now))
    ensures row.status == Delivered && !includeDelivered ==> RequeueRow(row, includeDelivered, now) == row
    ensures Classify(row, includeDelivered, now) == Requeued ==>
              var row' := RequeueRow(row, includeDelivered, now);
              && Due(row', now) && row'.claimableAt == now && row'.status == Pending && row'.attempts == 0
              && row'.totalAttempts == row.totalAttempts
              && row'.lockedBy == None && row'.leaseExpiresAt == None
              && row'.deliveredAt == None && row'.failedAt == None
              && (row'.requestId, row'.url, row'.name, row'.origin, row'.createdAt)
                 == (row.requestId, row.url, row.name, row.origin, row.createdAt)
  {
  }
}
