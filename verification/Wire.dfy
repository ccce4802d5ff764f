// One request on the wire at a time: what a delivery keeps as long as requests go out promptly -
// early enough to end within the lease of their claim - and no report takes the row from a newer
// claim that can still send.

module Wire {
  import opened Types
  import opened Config
  import opened Rows
  import opened Lanes
  import opened Faults

  ghost predicate Prompt(s: Settings, now: Time, lane: Lane, deed: Deed)
    requires Can(s, now, lane, deed)
  {
    deed.StartSend? ==> now + s.attemptDeadline <= lane.tokens[deed.n - 1].claimedAt + s.lease
  }

  /** The latest moment at which the request of a claim can still be on the wire. */
  function LatestEnd(s: Settings, wire: Wire): Time
    requires !wire.Unsent?
  {
    if wire.OnWire? then wire.start + s.attemptDeadline else wire.end
  }

  /** The earlier claim neither is sending nor can start to once the later one exists. */
  ghost predicate Cleared(s: Settings, earlier: Token, later: Token) {
    && (earlier.fate == Held && earlier.wire.Unsent? ==>
          earlier.claimedAt + s.lease < later.claimedAt + s.attemptDeadline)
    && (!earlier.wire.Unsent? ==> LatestEnd(s, earlier.wire) <= later.claimedAt)
  }

  ghost predicate WithinLease(s: Settings, t: Token) {
    !t.wire.Unsent? ==> t.wire.start + s.attemptDeadline <= t.claimedAt + s.lease
  }

  /** Only the newest claim can send, and only while it owns the row. */
  ghost predicate OnlyOwnerSends(s: Settings, now: Time, lane: Lane) {
    forall i :: 0 <= i < |lane.tokens| && CanSend(s, now, lane.tokens[i]) ==>
      lane.row.status == InFlight && i == |lane.tokens| - 1
  }

  ghost predicate WireOrdered(s: Settings, now: Time, lane: Lane) {
    && (forall i :: 0 <= i < |lane.tokens| ==> WithinLease(s, lane.tokens[i]))
    && (forall i, j :: 0 <= i < j < |lane.tokens| ==> Cleared(s, lane.tokens[i], lane.tokens[j]))
    && OnlyOwnerSends(s, now, lane)
  }

  lemma NewLaneOrdered(s: Settings, now: Time, id: Id, requestId: Id, r: Recipient)
    ensures WireOrdered(s, now, NewLane(id, NewRow(requestId, r, now)))
  {
  }

  lemma WaitOrdered(s: Settings, now: Time, to: Time, lane: Lane)
    requires WireOrdered(s, now, lane) && now <= to
    ensures WireOrdered(s, to, lane)
  {
    forall i | 0 <= i < |lane.tokens| && CanSend(s, to, lane.tokens[i])
      ensures lane.row.status == InFlight && i == |lane.tokens| - 1
    {
      assert CanSend(s, now, lane.tokens[i]);
    }
  }

  /** A row that may be taken or requeued has no claim that can send. */
  lemma NobodySends(s: Settings, now: Time, request: Request, lane: Lane, i: nat)
    requires Validated(s) && LaneInv(s, now, request, lane) && WireOrdered(s, now, lane) && i < |lane.tokens|
    requires lane.row.status == InFlight ==> lane.row.leaseExpiresAt.value <= now
    ensures !CanSend(s, now, lane.tokens[i])
  {
    assert WithinLease(s, lane.tokens[i]);
  }

  lemma TakeOrdered(s: Settings, now: Time, request: Request, lane: Lane, deed: Deed)
    requires Validated(s) && LaneInv(s, now, request, lane) && WireOrdered(s, now, lane)
    requires deed.Take? && Can(s, now, lane, deed)
    ensures WireOrdered(s, now, Do(s, now, lane, deed))
  {
    var tokens := Do(s, now, lane, deed).tokens;
    forall i | 0 <= i < |lane.tokens|
      ensures !CanSend(s, now, tokens[i]) && Cleared(s, tokens[i], tokens[|lane.tokens|])
    {
      NobodySends(s, now, request, lane, i);
      assert TokenOk(s, now, request, lane, i);
    }
    forall i, j | 0 <= i < j < |tokens| ensures Cleared(s, tokens[i], tokens[j]) {
      if j < |lane.tokens| { assert Cleared(s, lane.tokens[i], lane.tokens[j]); }
    }
  }

  /** Claims only get further on the wire, or end, under an unchanged row: the order is kept. */
  lemma FurtherOrdered(s: Settings, now: Time, lane: Lane, lane': Lane)
    requires WireOrdered(s, now, lane) && |lane'.tokens| == |lane.tokens|
    requires forall i :: 0 <= i < |lane.tokens| ==>
               && lane'.tokens[i].claimedAt == lane.tokens[i].claimedAt
               && WithinLease(s, lane'.tokens[i])
               && (CanSend(s, now, lane'.tokens[i]) ==> CanSend(s, now, lane.tokens[i]) && lane'.row.status == InFlight)
    requires forall i, j :: 0 <= i < j < |lane.tokens| ==> Cleared(s, lane'.tokens[i], lane'.tokens[j])
    ensures WireOrdered(s, now, lane')
  {
    forall i | 0 <= i < |lane'.tokens| && CanSend(s, now, lane'.tokens[i])
      ensures lane'.row.status == InFlight && i == |lane'.tokens| - 1
    {
      assert CanSend(s, now, lane.tokens[i]);
    }
  }

  /** A prompt request is the newest claim's. */
  lemma PromptIsNewest(s: Settings, now: Time, lane: Lane, deed: Deed)
    requires WireOrdered(s, now, lane) && deed.StartSend? && Can(s, now, lane, deed) && Prompt(s, now, lane, deed)
    ensures deed.n == |lane.tokens| && lane.row.status == InFlight
  {
    assert CanSend(s, now, lane.tokens[deed.n - 1]);
  }

  lemma StartOrdered(s: Settings, now: Time, request: Request, lane: Lane, deed: Deed)
    requires Validated(s) && LaneInv(s, now, request, lane) && WireOrdered(s, now, lane)
    requires deed.StartSend? && Can(s, now, lane, deed) && Prompt(s, now, lane, deed)
    ensures WireOrdered(s, now, Do(s, now, lane, deed))
  {
    var lane' := Do(s, now, lane, deed);
    PromptIsNewest(s, now, lane, deed);
    forall i | 0 <= i < |lane.tokens| ensures WithinLease(s, lane'.tokens[i]) {
      assert WithinLease(s, lane.tokens[i]);
    }
    forall i, j | 0 <= i < j < |lane.tokens| ensures Cleared(s, lane'.tokens[i], lane'.tokens[j]) {
      assert Cleared(s, lane.tokens[i], lane.tokens[j]);
    }
    FurtherOrdered(s, now, lane, lane');
  }

  /** The requests that end do so no later than they might have. */
  lemma EndedOrdered(s: Settings, now: Time, request: Request, lane: Lane, lane': Lane)
    requires LaneInv(s, now, request, lane) && WireOrdered(s, now, lane)
    requires lane'.row.status == lane.row.status && |lane'.tokens| == |lane.tokens|
    requires forall i :: 0 <= i < |lane.tokens| ==>
               var t, t' := lane.tokens[i], lane'.tokens[i];
               && t'.claimedAt == t.claimedAt
               && (t' == t || (t.wire.OnWire? && t'.wire == Closed(t.wire.start, now))
                   || (t'.wire == t.wire && !t.wire.OnWire? && t'.fate != Held))
    ensures WireOrdered(s, now, lane')
  {
    forall i | 0 <= i < |lane.tokens|
      ensures WithinLease(s, lane'.tokens[i])
      ensures CanSend(s, now, lane'.tokens[i]) ==> lane'.tokens[i] == lane.tokens[i]
    {
      assert WithinLease(s, lane.tokens[i]);
    }
    forall i, j | 0 <= i < j < |lane.tokens| ensures Cleared(s, lane'.tokens[i], lane'.tokens[j]) {
      assert Cleared(s, lane.tokens[i], lane.tokens[j]) && TokenOk(s, now, request, lane, i);
    }
    FurtherOrdered(s, now, lane, lane');
  }

  lemma QuietOrdered(s: Settings, now: Time, request: Request, lane: Lane, deed: Deed)
    requires LaneInv(s, now, request, lane) && WireOrdered(s, now, lane)
    requires (deed.EndSend? || deed.Forget?) && Can(s, now, lane, deed)
    ensures WireOrdered(s, now, Do(s, now, lane, deed))
  {
    EndedOrdered(s, now, request, lane, Do(s, now, lane, deed));
  }

  lemma ResetOrdered(s: Settings, now: Time, request: Request, lane: Lane, deed: Deed)
    requires Validated(s) && LaneInv(s, now, request, lane) && WireOrdered(s, now, lane) && deed.Reset?
    ensures WireOrdered(s, now, Do(s, now, lane, deed))
  {
    var lane' := Do(s, now, lane, deed);
    if Classify(lane.row, deed.includeDelivered, now) == Requeued {
      forall i | 0 <= i < |lane.tokens| ensures !CanSend(s, now, lane.tokens[i]) {
        NobodySends(s, now, request, lane, i);
      }
    }
  }

  /** A report that overrides nothing takes no row from a claim that can send. */
  lemma HarmlessReport(s: Settings, now: Time, lane: Lane, deed: Deed, i: nat)
    requires WireOrdered(s, now, lane) && deed.Record? && Can(s, now, lane, deed) && !Overrides(s, now, lane, deed)
    requires i < |lane.tokens| && CanSend(s, now, lane.tokens[i])
    ensures Do(s, now, lane, deed).row == lane.row
  {
    assert i == |lane.tokens| - 1 && deed.n != |lane.tokens|;
  }

  lemma RecordOrdered(s: Settings, now: Time, request: Request, lane: Lane, deed: Deed)
    requires Validated(s) && LaneInv(s, now, request, lane) && WireOrdered(s, now, lane)
    requires deed.Record? && Can(s, now, lane, deed) && !Overrides(s, now, lane, deed)
    ensures WireOrdered(s, now, Do(s, now, lane, deed))
  {
    var lane' := Do(s, now, lane, deed);
    assert TokenOk(s, now, request, lane, deed.n - 1);
    RecordMoves(s, now, lane, deed);
    forall i | 0 <= i < |lane.tokens|
      ensures lane'.tokens[i].wire == lane.tokens[i].wire && WithinLease(s, lane'.tokens[i])
      ensures CanSend(s, now, lane'.tokens[i]) ==> CanSend(s, now, lane.tokens[i]) && lane'.row.status == InFlight
    {
      assert WithinLease(s, lane.tokens[i]);
      if CanSend(s, now, lane'.tokens[i]) { HarmlessReport(s, now, lane, deed, i); }
    }
    forall i, j | 0 <= i < j < |lane.tokens| ensures Cleared(s, lane'.tokens[i], lane'.tokens[j]) {
      assert Cleared(s, lane.tokens[i], lane.tokens[j]);
    }
    FurtherOrdered(s, now, lane, lane');
  }

  lemma DeedOrdered(s: Settings, now: Time, request: Request, lane: Lane, deed: Deed)
    requires Validated(s) && LaneInv(s, now, request, lane) && WireOrdered(s, now, lane)
    requires Can(s, now, lane, deed) && Prompt(s, now, lane, deed) && !Overrides(s, now, lane, deed)
    ensures WireOrdered(s, now, Do(s, now, lane, deed))
  {
    match deed
    case Idle =>
    case Take(_, _) => TakeOrdered(s, now, request, lane, deed);
    case Record(_, _, _) => RecordOrdered(s, now, request, lane, deed);
    case Reset(_) => ResetOrdered(s, now, request, lane, deed);
    case StartSend(_) => StartOrdered(s, now, request, lane, deed);
    case _ => QuietOrdered(s, now, request, lane, deed);
  }

  /** Two requests of one delivery never overlap; the lower attempt number comes first. */
  lemma SendsExclude(s: Settings, now: Time, request: Request, lane: Lane, m: nat, n: nat)
    requires LaneInv(s, now, request, lane) && WireOrdered(s, now, lane)
    requires HasToken(lane, m) && HasToken(lane, n) && m < n
    requires !lane.tokens[m - 1].wire.Unsent? && !lane.tokens[n - 1].wire.Unsent?
    ensures LatestEnd(s, lane.tokens[m - 1].wire) <= lane.tokens[n - 1].wire.start
  {
    assert Cleared(s, lane.tokens[m - 1], lane.tokens[n - 1]);
    assert TokenOk(s, now, request, lane, n - 1);
  }
}
