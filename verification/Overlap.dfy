// The exact limits of wire exclusion: which reports and which sends can lead to two requests for
// one delivery on the wire together.

module Overlap {
  import opened Types
  import opened Config
  import opened Lanes
  import opened Faults
  import opened Wire
  import opened Protocol
  import opened Guarantees
  import ClaimQuery
  import History
  import Requeue
  import Waiting

  /** Two requests of a lane that are, or may still be, on the wire at one time. */
  ghost predicate Overlapping(s: Settings, lane: Lane, m: nat, n: nat) {
    && HasToken(lane, m) && HasToken(lane, n) && m < n
    && !lane.tokens[m - 1].wire.Unsent? && !lane.tokens[n - 1].wire.Unsent?
    && LatestEnd(s, lane.tokens[m - 1].wire) > lane.tokens[n - 1].wire.start
    && LatestEnd(s, lane.tokens[n - 1].wire) > lane.tokens[m - 1].wire.start
  }

  ghost predicate Overlaps(s: Settings, lane: Lane) {
    exists m, n :: Overlapping(s, lane, m, n)
  }

  /** A run of prompt sends in which no report overrides a newer claim. */
  ghost predicate Careful(s: Settings, w: World, es: Run) {
    Legal(s, w, es) && AllPrompt(s, w, es) && Free(Override, s, w, es)
  }

  ghost predicate CanOverlap(s: Settings, w: World, es: Run, d: Id) {
    Careful(s, w, es) && d in Exec(s, w, es).lanes && Overlaps(s, Exec(s, w, es).lanes[d])
  }

  // --- composing runs ----------------------------------------------------------------------

  lemma OnlySendsArePrompted(s: Settings, w: World, e: Event)
    requires Enabled(s, w, e) && !e.SendStart?
    ensures PromptEvent(s, w, e)
  {
    forall d | d in w.lanes ensures PromptAt(s, w, e, d) {
      assert Possible(s, w, e, d);
    }
  }

  lemma Prefixed(s: Settings, w: World, e: Event, es: Run)
    requires Enabled(s, w, e) && PromptEvent(s, w, e) && !Faulty(Override, s, w, e) && Careful(s, Apply(s, w, e), es)
    ensures Careful(s, w, [e] + es) && Exec(s, w, [e] + es) == Exec(s, Apply(s, w, e), es)
  {
    assert ([e] + es)[1..] == es;
  }

  // --- an override can always be followed by an overlap ------------------------------------------

  ghost function OrderedEvent(s: Settings, w: World, worker: WorkerId): Event {
    ClaimBatch(worker, 1, Table(w), ClaimQuery.OrderedWindow(s, Table(w), w.now, 1), {},
               ClaimQuery.OrderedPicks(s, Table(w), w.now, 1))
  }

  lemma OrderedEventIsEnabled(s: Settings, w: World, worker: WorkerId)
    requires Validated(s)
    ensures Enabled(s, w, OrderedEvent(s, w, worker))
    ensures PromptEvent(s, w, OrderedEvent(s, w, worker)) && !Faulty(Override, s, w, OrderedEvent(s, w, worker))
    ensures Waiting.Ordered(s, w, OrderedEvent(s, w, worker))
    ensures OrderedEvent(s, w, worker).picks <= Waiting.DueNow(w)
  {
    ClaimQuery.OrderedIsLegal(s, Table(w), w.now, 1);
    LegalClaimsAreEnabled(s, w, OrderedEvent(s, w, worker));
    OnlySendsArePrompted(s, w, OrderedEvent(s, w, worker));
  }

  /** What one claim does to a delivery: nothing, or a new unsent claim after the others. */
  lemma ClaimedOrNot(s: Settings, w: World, e: Event, d: Id)
    requires Validated(s) && WorldInv(s, w) && Enabled(s, w, e) && e.ClaimBatch? && d in w.lanes
    ensures d in Apply(s, w, e).lanes && Apply(s, w, e).now == w.now
    ensures var tokens, tokens' := w.lanes[d].tokens, Apply(s, w, e).lanes[d].tokens;
            if d in e.picks
            then |tokens'| == |tokens| + 1 && tokens == tokens'[..|tokens|] && tokens'[|tokens|].wire == Unsent
                 && tokens'[|tokens|].fate == Held && tokens'[|tokens|].claimedAt == w.now
            else Apply(s, w, e).lanes[d] == w.lanes[d]
  {
    assert LaneAt(s, w, d) && Possible(s, w, e, d);
  }

  lemma SendIsPossible(s: Settings, w: World, d: Id, n: nat)
    requires Validated(s) && d in w.lanes && HasToken(w.lanes[d], n)
    requires w.lanes[d].tokens[n - 1].wire == Unsent && CanSend(s, w.now, w.lanes[d].tokens[n - 1])
    ensures var e := SendStart(d, n);
            && Enabled(s, w, e) && PromptEvent(s, w, e) && !Faulty(Override, s, w, e)
            && d in Apply(s, w, e).lanes && Apply(s, w, e).now == w.now
            && Apply(s, w, e).lanes[d].row == w.lanes[d].row
            && Apply(s, w, e).lanes[d].tokens
               == w.lanes[d].tokens[n - 1 := w.lanes[d].tokens[n - 1].(wire := OnWire(w.now))]
  {
    var e := SendStart(d, n);
    forall x | x in w.lanes ensures Possible(s, w, e, x) {
    }
    assert Enabled(s, w, e);
    forall x | x in w.lanes ensures PromptAt(s, w, e, x) {
      assert Possible(s, w, e, x);
    }
    assert Possible(s, w, e, d);
  }

  lemma SendNow(s: Settings, w: World, d: Id, n: nat) returns (es: Run)
    requires Validated(s) && d in w.lanes && HasToken(w.lanes[d], n)
    requires w.lanes[d].tokens[n - 1].wire == Unsent && w.lanes[d].tokens[n - 1].fate == Held
    requires w.lanes[d].tokens[n - 1].claimedAt == w.now
    ensures Careful(s, w, es) && d in Exec(s, w, es).lanes
    ensures Exec(s, w, es).lanes[d].tokens
         == w.lanes[d].tokens[n - 1 := w.lanes[d].tokens[n - 1].(wire := OnWire(w.now))]
  {
    SendIsPossible(s, w, d, n);
    Prefixed(s, w, SendStart(d, n), []);
    es := [SendStart(d, n)] + [];
  }

  /** A due delivery can be claimed and sent at once: the rows ahead of it are claimed first. */
  lemma {:induction false} ClaimThenSend(s: Settings, w: World, d: Id, worker: WorkerId) returns (es: Run)
    requires Validated(s) && WorldInv(s, w) && d in Waiting.DueNow(w)
    ensures Careful(s, w, es) && d in Exec(s, w, es).lanes
    ensures var tokens, tokens' := w.lanes[d].tokens, Exec(s, w, es).lanes[d].tokens;
            && |tokens'| == |tokens| + 1 && tokens'[..|tokens|] == tokens
            && tokens'[|tokens|].wire == OnWire(w.now)
    decreases |Waiting.DueNow(w)|
  {
    var e := OrderedEvent(s, w, worker);
    OrderedEventIsEnabled(s, w, worker);
    ClaimQuery.EmptyOnlyIfNothingDue(s, Table(w), w.now, 1);
    var w' := Apply(s, w, e);
    EventKeeps(s, w, e);
    ClaimedOrNot(s, w, e, d);
    Waiting.ClaimConsumes(s, w, e);
    if d in e.picks {
      es := SendNow(s, w', d, |w'.lanes[d].tokens|);
    } else {
      Smaller(Waiting.DueNow(w), e.picks);
      es := ClaimThenSend(s, w', d, worker);
    }
    Prefixed(s, w, e, es);
    es := [e] + es;
  }

  lemma Smaller(all: set<Id>, part: set<Id>)
    requires part <= all && part != {}
    ensures |all - part| < |all|
  {
    var x := ClaimQuery.AnyOf(part);
    ClaimQuery.SubsetSize(all - part, all - {x});
  }

  /** A manual retry of this one delivery, every other row being locked by somebody else. */
  ghost function RetryEvent(w: World, d: Id): Event
    requires d in w.lanes
  {
    ManualRetry(Requeue.OneLead(w.lanes[d].row.requestId, []), None, true, w.lanes.Keys - {d}, {d})
  }

  lemma RetryNow(s: Settings, w: World, d: Id)
    requires Validated(s) && WorldInv(s, w) && d in w.lanes && w.lanes[d].row.status != InFlight
    ensures Enabled(s, w, RetryEvent(w, d)) && PromptEvent(s, w, RetryEvent(w, d))
    ensures !Faulty(Override, s, w, RetryEvent(w, d))
    ensures var w' := Apply(s, w, RetryEvent(w, d));
            w'.now == w.now && d in Waiting.DueNow(w') && w'.lanes[d].tokens == w.lanes[d].tokens
  {
    var e := RetryEvent(w, d);
    OneSelected(w, d);
    forall x | x in w.lanes ensures Possible(s, w, e, x) {
    }
    OnlySendsArePrompted(s, w, e);
    assert LaneAt(s, w, d) && Possible(s, w, e, d);
    Requeue.RequeuedRow(w.lanes[d].row, true, w.now);
  }

  lemma OneSelected(w: World, d: Id)
    requires d in w.lanes
    ensures var e := RetryEvent(w, d);
            Requeue.LegalSelection(w.requests, Table(w), e.filter, e.cap, e.locked, e.sel)
  {
    var e := RetryEvent(w, d);
    var all := set x | x in Table(w) && Requeue.Matches(w.requests, Table(w)[x], e.filter) && x !in e.locked;
    assert d in all && all == {d};
  }

  lemma StartedBefore(s: Settings, w: World, d: Id, k: nat)
    requires WorldInv(s, w) && d in w.lanes && HasToken(w.lanes[d], k) && w.lanes[d].tokens[k - 1].wire.OnWire?
    ensures w.lanes[d].tokens[k - 1].wire.start <= w.now
  {
    assert LaneAt(s, w, d);
    assert TokenOk(s, w.now, w.requests[w.lanes[d].row.requestId], w.lanes[d], k - 1);
  }

  /** From any state in which a request is on the wire although its row is not in flight, prompt
      sends alone lead to an overlap. */
  lemma LooseRequestOverlaps(s: Settings, w: World, d: Id) returns (es: Run)
    requires Validated(s) && WorldInv(s, w) && d in w.lanes && w.lanes[d].row.status != InFlight
    requires w.lanes[d].tokens != []
    requires var t := w.lanes[d].tokens[|w.lanes[d].tokens| - 1];
             t.wire.OnWire? && w.now < t.wire.start + s.attemptDeadline
    ensures CanOverlap(s, w, es, d)
  {
    var e := RetryEvent(w, d);
    RetryNow(s, w, d);
    EventKeeps(s, w, e);
    es := ClaimThenSend(s, Apply(s, w, e), d, "other");
    Prefixed(s, w, e, es);
    es := [e] + es;
    var k := |w.lanes[d].tokens|;
    assert Exec(s, w, es).lanes[d].tokens[k - 1] == w.lanes[d].tokens[k - 1];
    StartedBefore(s, w, d, k);
    assert Overlapping(s, Exec(s, w, es).lanes[d], k, k + 1);
  }

  lemma OverrideLoosens(s: Settings, w: World, e: Event)
    requires Validated(s) && WorldInv(s, w) && Enabled(s, w, e) && Faulty(Override, s, w, e)
    ensures e.d in Apply(s, w, e).lanes && Apply(s, w, e).now == w.now
    ensures var lane, lane' := w.lanes[e.d], Apply(s, w, e).lanes[e.d];
            && lane'.row.status != InFlight && |lane'.tokens| == |lane.tokens| > 0
            && lane'.tokens[|lane.tokens| - 1] == lane.tokens[|lane.tokens| - 1]
  {
    var lane := w.lanes[e.d];
    assert LaneAt(s, w, e.d) && Possible(s, w, e, e.d);
    assert TokenOk(s, w.now, w.requests[lane.row.requestId], lane, e.n - 1);
    RecordMoves(s, w.now, lane, DeedOf(w, e, e.d));
  }

  lemma CarefulNeverOverlaps(s: Settings, w: World, es: Run, d: Id)
    requires Validated(s) && WorldInv(s, w) && AllOrdered(s, w) && Careful(s, w, es)
    ensures !CanOverlap(s, w, es, d)
  {
    var w' := Exec(s, w, es);
    if d in w'.lanes {
      RunKeeps(s, w, es);
      SafeRunKeeps(s, w, es);
      assert LaneAt(s, w', d) && WireOrdered(s, w'.now, w'.lanes[d]);
      forall m, n | HasToken(w'.lanes[d], m) && HasToken(w'.lanes[d], n) && m < n
                    && !w'.lanes[d].tokens[m - 1].wire.Unsent? && !w'.lanes[d].tokens[n - 1].wire.Unsent?
        ensures !Overlapping(s, w'.lanes[d], m, n)
      {
        SendsExclude(s, w'.now, w'.requests[w'.lanes[d].row.requestId], w'.lanes[d], m, n);
      }
    }
  }

  /** A claim that can send leads to an overlap once its row is not in flight any more. */
  lemma LooseClaimOverlaps(s: Settings, w: World, d: Id) returns (es: Run)
    requires Validated(s) && WorldInv(s, w) && d in w.lanes && w.lanes[d].row.status != InFlight
    requires w.lanes[d].tokens != [] && CanSend(s, w.now, w.lanes[d].tokens[|w.lanes[d].tokens| - 1])
    ensures CanOverlap(s, w, es, d)
  {
    var k := |w.lanes[d].tokens|;
    if w.lanes[d].tokens[k - 1].wire.OnWire? {
      es := LooseRequestOverlaps(s, w, d);
    } else {
      var e := SendStart(d, k);
      SendIsPossible(s, w, d, k);
      EventKeeps(s, w, e);
      es := LooseRequestOverlaps(s, Apply(s, w, e), d);
      Prefixed(s, w, e, es);
      es := [e] + es;
    }
  }

  /** The exact limit of wire exclusion: in any state in which it is still safe, and for any report,
      there are prompt sends, without any further override, that lead from the report to two
      overlapping requests if and only if the report takes the row from a newer claim that can still
      send - as a late success does, or a late failure of the worker that owns the row again. */
  lemma OverrideIsTheLimit(s: Settings, w: World, e: Event)
    requires Validated(s) && WorldInv(s, w) && AllOrdered(s, w) && Enabled(s, w, e) && e.Report?
    ensures (exists es :: CanOverlap(s, Apply(s, w, e), es, e.d)) <==> Faulty(Override, s, w, e)
  {
    var w' := Apply(s, w, e);
    EventKeeps(s, w, e);
    if Faulty(Override, s, w, e) {
      OverrideLoosens(s, w, e);
      var es := LooseClaimOverlaps(s, w', e.d);
      assert CanOverlap(s, w', es, e.d);
    } else {
      OnlySendsArePrompted(s, w, e);
      EventSafe(s, w, e);
      forall es | Careful(s, w', es) ensures !CanOverlap(s, w', es, e.d) {
        CarefulNeverOverlaps(s, w', es, e.d);
      }
    }
  }

  // --- a late send ------------------------------------------------------------------------------

  /** All claims crash except one. */
  ghost function OthersCrash(w: World, d: Id, k: nat): Event {
    Abandon(set x, n | x in w.lanes && n in History.UpTo(|w.lanes[x].tokens|) && (x, n) != (d, k) :: (x, n))
  }

  lemma QuietCrash(s: Settings, w: World, d: Id, k: nat)
    requires Validated(s) && WorldInv(s, w) && d in w.lanes && HasToken(w.lanes[d], k)
    ensures var e := OthersCrash(w, d, k);
            && Enabled(s, w, e) && PromptEvent(s, w, e) && !Faulty(Override, s, w, e)
            && Apply(s, w, e).now == w.now && d in Apply(s, w, e).lanes
            && Apply(s, w, e).lanes[d].row == w.lanes[d].row
            && |Apply(s, w, e).lanes[d].tokens| == |w.lanes[d].tokens|
            && Apply(s, w, e).lanes[d].tokens[k - 1] == w.lanes[d].tokens[k - 1]
            && forall x :: x in Apply(s, w, e).lanes ==> OnlyOnWire(Apply(s, w, e).lanes[x], d, k)
  {
    var e := OthersCrash(w, d, k);
    forall x | x in w.lanes ensures Possible(s, w, e, x) {
    }
    assert Enabled(s, w, e);
    OnlySendsArePrompted(s, w, e);
    assert Possible(s, w, e, d);
    forall x | x in w.lanes ensures OnlyOnWire(Apply(s, w, e).lanes[x], d, k) {
      LaneCrashes(s, w, d, k, x);
    }
    KeptClaim(s, w, d, k);
  }

  /** No request of the lane is on the wire, except attempt k of delivery d. */
  ghost predicate OnlyOnWire(lane: Lane, d: Id, k: nat) {
    forall i :: 0 <= i < |lane.tokens| && lane.tokens[i].wire.OnWire? ==> lane.id == d && i == k - 1
  }

  lemma OthersAreGone(w: World, d: Id, k: nat, x: Id, n: nat)
    requires x in w.lanes && HasToken(w.lanes[x], n)
    ensures (x, n) in OthersCrash(w, d, k).gone <==> (x, n) != (d, k)
  {
    assert n in History.UpTo(|w.lanes[x].tokens|);
  }

  lemma LaneCrashes(s: Settings, w: World, d: Id, k: nat, x: Id)
    requires WorldInv(s, w) && x in w.lanes && Enabled(s, w, OthersCrash(w, d, k))
    ensures x in Apply(s, w, OthersCrash(w, d, k)).lanes && OnlyOnWire(Apply(s, w, OthersCrash(w, d, k)).lanes[x], d, k)
  {
    var e := OthersCrash(w, d, k);
    var lane := w.lanes[x];
    assert LaneAt(s, w, x) && Possible(s, w, e, x);
    var lane' := Apply(s, w, e).lanes[x];
    forall i | 0 <= i < |lane'.tokens| && lane'.tokens[i].wire.OnWire? ensures lane'.id == d && i == k - 1 {
      assert TokenOk(s, w.now, w.requests[lane.row.requestId], lane, i);
      OthersAreGone(w, d, k, x, i + 1);
    }
  }

  lemma KeptClaim(s: Settings, w: World, d: Id, k: nat)
    requires WorldInv(s, w) && d in w.lanes && HasToken(w.lanes[d], k) && Enabled(s, w, OthersCrash(w, d, k))
    ensures var lane' := Apply(s, w, OthersCrash(w, d, k)).lanes[d];
            && lane'.row == w.lanes[d].row && |lane'.tokens| == |w.lanes[d].tokens|
            && lane'.tokens[k - 1] == w.lanes[d].tokens[k - 1]
  {
    var e := OthersCrash(w, d, k);
    assert Possible(s, w, e, d);
    OthersAreGone(w, d, k, d, k);
    assert k !in DeedOf(w, e, d).gone;
  }

  lemma WaitAlone(s: Settings, w: World, d: Id, k: nat, to: Time)
    requires Validated(s) && WorldInv(s, w) && w.now <= to && d in w.lanes && HasToken(w.lanes[d], k)
    requires forall x :: x in w.lanes ==> OnlyOnWire(w.lanes[x], d, k)
    requires w.lanes[d].tokens[k - 1].wire.OnWire? ==> to <= w.lanes[d].tokens[k - 1].wire.start + s.attemptDeadline
    ensures Enabled(s, w, Tick(to)) && PromptEvent(s, w, Tick(to)) && !Faulty(Override, s, w, Tick(to))
  {
    forall x | x in w.lanes ensures MayWait(s, to, w.lanes[x]) && Possible(s, w, Tick(to), x) {
      assert LaneAt(s, w, x) && OnlyOnWire(w.lanes[x], d, k);
    }
    OnlySendsArePrompted(s, w, Tick(to));
  }

  /** A request that outlasts its lease meets the next one, if all that happens is that the lease runs
      out and the row is claimed again. */
  lemma OutlastingOverlaps(s: Settings, w: World, d: Id) returns (es: Run)
    requires Validated(s) && WorldInv(s, w) && d in w.lanes && w.lanes[d].tokens != []
    requires var t := w.lanes[d].tokens[|w.lanes[d].tokens| - 1];
             t.wire == OnWire(w.now) && w.now + s.attemptDeadline > t.claimedAt + s.lease
    ensures CanOverlap(s, w, es, d)
  {
    var k := |w.lanes[d].tokens|;
    if w.lanes[d].row.status != InFlight {
      es := LooseRequestOverlaps(s, w, d);
    } else {
      var t := w.lanes[d].tokens[k - 1];
      assert LaneAt(s, w, d);
      var crash := OthersCrash(w, d, k);
      QuietCrash(s, w, d, k);
      var w1 := Apply(s, w, crash);
      EventKeeps(s, w, crash);
      var to := MaxR(w.now, t.claimedAt + s.lease);
      WaitAlone(s, w1, d, k, to);
      var w2 := Apply(s, w1, Tick(to));
      EventKeeps(s, w1, Tick(to));
      assert d in Waiting.DueNow(w2);
      es := ClaimThenSend(s, w2, d, "other");
      assert Exec(s, w2, es).lanes[d].tokens[k - 1] == t;
      assert Overlapping(s, Exec(s, w2, es).lanes[d], k, k + 1);
      Prefixed(s, w1, Tick(to), es);
      Prefixed(s, w, crash, [Tick(to)] + es);
      es := [crash] + ([Tick(to)] + es);
    }
  }

  lemma SendStarts(s: Settings, w: World, d: Id, k: nat)
    requires Validated(s) && WorldInv(s, w) && Enabled(s, w, SendStart(d, k))
    ensures d in w.lanes && HasToken(w.lanes[d], k) && d in Apply(s, w, SendStart(d, k)).lanes
    ensures var w' := Apply(s, w, SendStart(d, k));
            && w'.now == w.now && |w'.lanes[d].tokens| == |w.lanes[d].tokens|
            && w'.lanes[d].tokens[k - 1] == w.lanes[d].tokens[k - 1].(wire := OnWire(w.now))
  {
    assert d in w.lanes;
    assert Possible(s, w, SendStart(d, k), d);
  }

  lemma PromptSend(s: Settings, w: World, d: Id, k: nat)
    requires Enabled(s, w, SendStart(d, k)) && d in w.lanes && HasToken(w.lanes[d], k)
    requires w.now + s.attemptDeadline <= w.lanes[d].tokens[k - 1].claimedAt + s.lease
    ensures PromptEvent(s, w, SendStart(d, k))
  {
    forall x | x in w.lanes ensures PromptAt(s, w, SendStart(d, k), x) {
      assert Possible(s, w, SendStart(d, k), x);
    }
  }

  /** The deadline runs from the send, the lease from the claim. In a state in which exclusion is
      still safe, sending the newest claim can be followed by prompt sends, without any override, to
      two overlapping requests if and only if the request may outlast the lease of its claim. */
  lemma LateSendIsTheLimit(s: Settings, w: World, d: Id)
    requires Validated(s) && WorldInv(s, w) && AllOrdered(s, w) && d in w.lanes
    requires Enabled(s, w, SendStart(d, |w.lanes[d].tokens|)) && w.lanes[d].tokens != []
    ensures (exists es :: CanOverlap(s, Apply(s, w, SendStart(d, |w.lanes[d].tokens|)), es, d))
       <==> w.now + s.attemptDeadline > w.lanes[d].tokens[|w.lanes[d].tokens| - 1].claimedAt + s.lease
  {
    var k := |w.lanes[d].tokens|;
    var e := SendStart(d, k);
    var w' := Apply(s, w, e);
    EventKeeps(s, w, e);
    SendStarts(s, w, d, k);
    if w.now + s.attemptDeadline > w.lanes[d].tokens[k - 1].claimedAt + s.lease {
      var es := OutlastingOverlaps(s, w', d);
      assert CanOverlap(s, w', es, d);
    } else {
      PromptSend(s, w, d, k);
      EventSafe(s, w, e);
      forall es | Careful(s, w', es) ensures !CanOverlap(s, w', es, d) {
        CarefulNeverOverlaps(s, w', es, d);
      }
    }
  }
}
