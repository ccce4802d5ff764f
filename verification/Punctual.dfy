// What additionally holds when reports are timely: every result is recorded strictly before the
// lease of its claim runs out, or never. Crashes are still allowed anywhere.

module Punctual {
  import opened Types
  import opened Config
  import opened Lanes

  ghost predicate Timely(s: Settings, now: Time, lane: Lane, deed: Deed)
    requires Can(s, now, lane, deed)
  {
    deed.Record? ==> now < lane.tokens[deed.n - 1].claimedAt + s.lease
  }

  ghost predicate Live(s: Settings, now: Time, t: Token) {
    t.fate == Held && now < t.claimedAt + s.lease
  }

  /** Only the owner of the row can still make a timely report. */
  ghost predicate OnlyOwnerLive(s: Settings, now: Time, lane: Lane) {
    forall i :: 0 <= i < |lane.tokens| && Live(s, now, lane.tokens[i]) ==>
      lane.row.status == InFlight && i == |lane.tokens| - 1
  }

  lemma WaitOwned(s: Settings, now: Time, to: Time, lane: Lane)
    requires OnlyOwnerLive(s, now, lane) && now <= to
    ensures OnlyOwnerLive(s, to, lane)
  {
    forall i | 0 <= i < |lane.tokens| && Live(s, to, lane.tokens[i])
      ensures lane.row.status == InFlight && i == |lane.tokens| - 1
    {
      assert Live(s, now, lane.tokens[i]);
    }
  }

  /** A row that may be taken or requeued has no live claim. */
  lemma NobodyLive(s: Settings, now: Time, request: Request, lane: Lane, i: nat)
    requires LaneInv(s, now, request, lane) && OnlyOwnerLive(s, now, lane) && i < |lane.tokens|
    requires lane.row.status == InFlight ==> lane.row.leaseExpiresAt.value <= now
    ensures !Live(s, now, lane.tokens[i])
  {
  }

  /** A timely report is about the row as it is: its claim owns the row and is unjournalled. */
  lemma TimelyReporterOwns(s: Settings, now: Time, request: Request, lane: Lane, deed: Deed)
    requires LaneInv(s, now, request, lane) && OnlyOwnerLive(s, now, lane)
    requires deed.Record? && Can(s, now, lane, deed) && Timely(s, now, lane, deed)
    ensures lane.row.status == InFlight && deed.n == |lane.tokens|
    ensures var t := lane.tokens[deed.n - 1];
            && lane.row.lockedBy == Some(t.worker)
            && t.claim.attemptNumber == deed.n && t.claim.budgetAttempt == lane.row.attempts >= 1
            && deed.n !in lane.journal && deed.n !in lane.gaps
  {
    assert Live(s, now, lane.tokens[deed.n - 1]);
    assert TokenOk(s, now, request, lane, deed.n - 1);
  }

  lemma RecordOwned(s: Settings, now: Time, request: Request, lane: Lane, deed: Deed)
    requires Validated(s) && LaneInv(s, now, request, lane) && OnlyOwnerLive(s, now, lane)
    requires deed.Record? && Can(s, now, lane, deed) && Timely(s, now, lane, deed)
    ensures OnlyOwnerLive(s, now, Do(s, now, lane, deed))
  {
    var lane' := Do(s, now, lane, deed);
    TimelyReporterOwns(s, now, request, lane, deed);
    RecordMoves(s, now, lane, deed);
    forall i | 0 <= i < |lane'.tokens| ensures !Live(s, now, lane'.tokens[i]) {
      if i != deed.n - 1 { assert !Live(s, now, lane.tokens[i]); }
    }
  }

  lemma DeedTimely(s: Settings, now: Time, request: Request, lane: Lane, deed: Deed)
    requires Validated(s) && LaneInv(s, now, request, lane) && OnlyOwnerLive(s, now, lane)
    requires Can(s, now, lane, deed) && Timely(s, now, lane, deed)
    ensures OnlyOwnerLive(s, now, Do(s, now, lane, deed))
  {
    var lane' := Do(s, now, lane, deed);
    if deed.Record? {
      RecordOwned(s, now, request, lane, deed);
    } else {
      forall i | 0 <= i < |lane'.tokens| && Live(s, now, lane'.tokens[i])
        ensures lane'.row.status == InFlight && i == |lane'.tokens| - 1
      {
        if i < |lane.tokens| {
          assert Live(s, now, lane.tokens[i]);
          if deed.Take? || (deed.Reset? && lane'.row != lane.row) { NobodyLive(s, now, request, lane, i); }
        }
      }
    }
  }
}
