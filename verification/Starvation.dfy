// The price of the missing tie-break, reached from an empty database.

module Starvation {
  import opened Types
  import opened Config
  import opened Rows
  import opened Lanes
  import opened Protocol
  import ClaimQuery
  import ClaimRefinement
  import Intake
  import Waiting

  /** Different addresses of one recipient host. */
  function Unary(n: nat): string {
    seq(n, i => 'a')
  }

  function SameHost(n: nat, origin: string): seq<Recipient> {
    seq(n, i requires 0 <= i < n => Recipient(Unary(i), None, origin))
  }

  function FirstIds(n: nat): seq<Id> {
    seq(n, i => i)
  }

  lemma UnaryDiffers(m: nat, n: nat)
    requires m < n
    ensures Unary(m) != Unary(n)
  {
    assert |Unary(m)| == m && |Unary(n)| == n;
  }

  lemma AddressesDiffer(n: nat, origin: string)
    ensures |Intake.UrlsOf(SameHost(n, origin))| == n
  {
    var rs := SameHost(n, origin);
    forall i, j | 0 <= i < j < |rs| ensures rs[i].url != rs[j].url {
      UnaryDiffers(i, j);
    }
    Intake.DistinctUrls(rs);
  }

  /** One lead for n addresses of one host. */
  function AcceptMany(n: nat, origin: string): Event {
    Accept("source", "key", "{}", SameHost(n, origin), 7, FirstIds(|Dedupe(SameHost(n, origin))|))
  }

  lemma AllDue(s: Settings, t: Time, n: nat, origin: string)
    requires Validated(s)
    ensures Enabled(s, Initial(t), AcceptMany(n, origin))
    ensures var w := Apply(s, Initial(t), AcceptMany(n, origin));
            && |Waiting.DueNow(w)| == n
            && forall d :: d in Waiting.DueNow(w) ==> Table(w)[d].origin == origin && Table(w)[d].claimableAt == t
  {
    var w, e := Initial(t), AcceptMany(n, origin);
    var rs := Dedupe(e.recipients);
    assert Enabled(s, w, e);
    var w' := Apply(s, w, e);
    assert !KnownKey(w.requests, "source", "key");
    AddressesDiffer(n, origin);
    Intake.DedupeIsFirstMention(e.recipients);
    InsertFrames(w.lanes, t, 7, rs, e.ids);
    InsertKeepsUnique(w.lanes, t, 7, rs, e.ids);
    Intake.InsertAddresses(w.lanes, t, 7, rs, e.ids);
    Intake.EachAddressOnce(w'.lanes, 7);
    forall d | d in w'.lanes ensures w'.lanes[d].row.origin == origin && w'.lanes[d].row.claimableAt == t
                                && Due(w'.lanes[d].row, t) && w'.lanes[d].row.requestId == 7 {
      HostOf(n, origin, w', d, t);
    }
    assert Waiting.DueNow(w') == Intake.DeliveriesOf(w'.lanes, 7);
  }

  lemma HostOf(n: nat, origin: string, w: World, d: Id, t: Time)
    requires d in w.lanes
    requires exists r :: r in Dedupe(SameHost(n, origin)) && w.lanes[d] == NewLane(d, NewRow(7, r, t))
    ensures w.lanes[d].row.origin == origin && w.lanes[d].row.claimableAt == t
    ensures Due(w.lanes[d].row, t) && w.lanes[d].row.requestId == 7
  {
    var r :| r in Dedupe(SameHost(n, origin)) && w.lanes[d] == NewLane(d, NewRow(7, r, t));
    var i :| 0 <= i < |Dedupe(SameHost(n, origin))| && Dedupe(SameHost(n, origin))[i] == r;
    Intake.DedupeIsFirstMention(SameHost(n, origin));
  }

  /** For all validated settings and every limit: one lead for limit * claim_scan_multiplier +
      max_claims_per_origin addresses of one host, and an uncontended claim for it may hand out
      nothing although every one of them is due. */
  lemma StarvationIsReachable(s: Settings, t: Time, limit: int, origin: string, worker: WorkerId)
    returns (n: nat, claim: Event)
    requires Validated(s) && limit > 0
    ensures n == limit * s.claimScanMultiplier + s.maxClaimsPerOrigin
    ensures Enabled(s, Initial(t), AcceptMany(n, origin))
    ensures var w := Apply(s, Initial(t), AcceptMany(n, origin));
            && WorldInv(s, w) && |Waiting.DueNow(w)| == n > 0
            && Enabled(s, w, claim) && claim.ClaimBatch? && claim.limit == limit && claim.worker == worker
            && Waiting.Uncontended(s, w, claim) && claim.picks == {}
  {
    ClaimQuery.WindowIsPositive(s, limit);
    n := limit * s.claimScanMultiplier + s.maxClaimsPerOrigin;
    AllDue(s, t, n, origin);
    var w := Apply(s, Initial(t), AcceptMany(n, origin));
    EventKeeps(s, Initial(t), AcceptMany(n, origin));
    ClaimRefinement.BurstStarves(s, Table(w), t, limit, origin, t);
    var size := limit * s.claimScanMultiplier;
    var window :| ClaimQuery.LegalWindow(Table(w), t, size, window)
                  && ClaimRefinement.Starves(s, Table(w), t, limit, window);
    claim := ClaimBatch(worker, limit, Table(w), window, {}, {});
    LegalClaimsAreEnabled(s, w, claim);
  }

  /** With the shipped settings nine addresses are enough for a worker with one free slot. */
  lemma NineAddressesStarve(t: Time, origin: string, worker: WorkerId) returns (claim: Event)
    ensures Enabled(DEFAULTS, Initial(t), AcceptMany(9, origin))
    ensures var w := Apply(DEFAULTS, Initial(t), AcceptMany(9, origin));
            && |Waiting.DueNow(w)| == 9 && Enabled(DEFAULTS, w, claim)
            && claim.ClaimBatch? && claim.limit == 1 && Waiting.Uncontended(DEFAULTS, w, claim) && claim.picks == {}
  {
    var n: nat;
    n, claim := StarvationIsReachable(DEFAULTS, t, 1, origin, worker);
  }
}
