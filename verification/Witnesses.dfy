// Runs from an empty database, with the shipped settings, in which a promise fails.

module Witnesses {
  import opened Types
  import opened Config
  import opened Rows
  import opened Lanes
  import opened Bookkeeping
  import opened Wire
  import opened Protocol
  import opened Guarantees
  import opened Overlap
  import ClaimQuery
  import Retry
  import Sender

  // --- composing runs of one delivery ---------------------------------------------------------

  /** The shipped settings, except perhaps for the size of the budget. */
  predicate Shipped(s: Settings) {
    s.retryMaxAttempts >= 1 && s == DEFAULTS.(retryMaxAttempts := s.retryMaxAttempts)
  }

  /** A world with one lead and one delivery. */
  function Solo(now: Time, request: Request, lane: Lane): World {
    World(now, map[lane.row.requestId := request], map[lane.id := lane])
  }

  /** A run from an empty database to a given world, without a late send. */
  ghost predicate Reaches(s: Settings, es: Run, w: World) {
    && Legal(s, Initial(0.0), es) && AllPrompt(s, Initial(0.0), es)
    && Exec(s, Initial(0.0), es) == w
  }

  lemma {:induction false} Appended(s: Settings, w: World, es: Run, tail: Run)
    requires Legal(s, w, es) && AllPrompt(s, w, es)
    requires Legal(s, Exec(s, w, es), tail) && AllPrompt(s, Exec(s, w, es), tail)
    ensures Legal(s, w, es + tail) && AllPrompt(s, w, es + tail)
    ensures Exec(s, w, es + tail) == Exec(s, Exec(s, w, es), tail)
    decreases |es|
  {
    if es == [] {
      assert es + tail == tail;
    } else {
      Appended(s, Apply(s, w, es[0]), es[1..], tail);
      assert (es + tail)[1..] == es[1..] + tail;
    }
  }

  lemma One(s: Settings, w: World, e: Event)
    requires Shipped(s)
    requires Enabled(s, w, e) && PromptEvent(s, w, e)
    ensures Legal(s, w, [e]) && AllPrompt(s, w, [e])
    ensures Exec(s, w, [e]) == Apply(s, w, e)
  {
    assert [e][1..] == [];
  }

  lemma Then(s: Settings, es: Run, w: World, e: Event)
    requires Shipped(s)
    requires Reaches(s, es, w) && Enabled(s, w, e) && PromptEvent(s, w, e)
    ensures Reaches(s, es + [e], Apply(s, w, e))
  {
    One(s, w, e);
    Appended(s, Initial(0.0), es, [e]);
  }

  /** In a world with one delivery an event is the deed it does to that delivery. */
  lemma SoloApply(s: Settings, now: Time, request: Request, lane: Lane, e: Event)
    requires Shipped(s)
    requires !e.Tick? && !e.Accept? && !e.Attach? && Enabled(s, Solo(now, request, lane), e)
    ensures var deed := DeedOf(Solo(now, request, lane), e, lane.id);
            && Can(s, now, lane, deed)
            && Apply(s, Solo(now, request, lane), e) == Solo(now, request, Do(s, now, lane, deed))
  {
    var w := Solo(now, request, lane);
    assert Possible(s, w, e, lane.id);
    DeedSameIdentity(s, now, lane, DeedOf(w, e, lane.id));
    assert Apply(s, w, e).lanes == map[lane.id := Do(s, now, lane, DeedOf(w, e, lane.id))];
  }

  lemma SoloDeed(s: Settings, now: Time, request: Request, lane: Lane, e: Event, deed: Deed)
    requires Shipped(s)
    requires e.SendStart? || e.SendEnd? || e.Report?
    requires e.d == lane.id && deed == DeedOf(Solo(now, request, lane), e, lane.id)
    requires Can(s, now, lane, deed) && Prompt(s, now, lane, deed)
    ensures Enabled(s, Solo(now, request, lane), e) && PromptEvent(s, Solo(now, request, lane), e)
    ensures Apply(s, Solo(now, request, lane), e) == Solo(now, request, Do(s, now, lane, deed))
  {
    var w := Solo(now, request, lane);
    forall d | d in w.lanes ensures Possible(s, w, e, d) {
    }
    assert Enabled(s, w, e);
    forall d | d in w.lanes ensures PromptAt(s, w, e, d) {
    }
    SoloApply(s, now, request, lane, e);
  }

  lemma SoloTick(s: Settings, now: Time, request: Request, lane: Lane, to: Time)
    requires Shipped(s)
    requires now <= to && MayWait(s, to, lane)
    ensures var w := Solo(now, request, lane);
            && Enabled(s, w, Tick(to)) && PromptEvent(s, w, Tick(to))
            && Apply(s, w, Tick(to)) == Solo(to, request, lane)
  {
    var w := Solo(now, request, lane);
    forall d | d in w.lanes ensures Possible(s, w, Tick(to), d) {
    }
    OnlySendsArePrompted(s, w, Tick(to));
  }

  lemma SoloPick(s: Settings, now: Time, request: Request, lane: Lane)
    requires Shipped(s)
    requires Due(lane.row, now)
    ensures lane.id in ClaimQuery.OrderedPicks(s, Table(Solo(now, request, lane)), now, 1)
  {
    var ds := Table(Solo(now, request, lane));
    assert ClaimQuery.DueIds(ds, now) == {lane.id};
    ClaimQuery.HeadIsPicked(s, ds, now, 1, lane.id);
  }

  lemma SoloClaim(s: Settings, now: Time, request: Request, lane: Lane, worker: WorkerId) returns (e: Event)
    requires Shipped(s)
    requires Due(lane.row, now)
    ensures var w := Solo(now, request, lane);
            && e.ClaimBatch? && Enabled(s, w, e) && PromptEvent(s, w, e)
            && Apply(s, w, e) == Solo(now, request, Do(s, now, lane, Take(worker, request)))
  {
    e := OrderedEvent(s, Solo(now, request, lane), worker);
    OrderedEventIsEnabled(s, Solo(now, request, lane), worker);
    SoloPick(s, now, request, lane);
    SoloApply(s, now, request, lane, e);
  }

  const LEAD := Request("source", "key", "{}", 0.0)

  lemma OneRecipient(r: Recipient)
    ensures Dedupe([r]) == [r]
    ensures InsertDeliveries(map[], 0.0, 7, [r], [1]) == map[1 := NewLane(1, NewRow(7, r, 0.0))]
  {
    assert [r][..0] == [] && [1][..0] == [];
    assert Dedupe([]) == [];
  }

  lemma SoloAccept(s: Settings, r: Recipient) returns (e: Event)
    requires Shipped(s)
    ensures Reaches(s, [e], Solo(0.0, LEAD, NewLane(1, NewRow(7, r, 0.0)))) && e.Accept?
  {
    e := Accept("source", "key", "{}", [r], 7, [1]);
    OneRecipient(r);
    var w := Initial(0.0);
    assert Enabled(s, w, e);
    OnlySendsArePrompted(s, w, e);
    One(s, w, e);
    assert !KnownKey(w.requests, "source", "key");
  }

  /** Worker a sends, loses its lease, and the second attempt is sent by `second`. */
  lemma SecondAttempt(s: Settings, r: Recipient, second: WorkerId) returns (es: Run, lane: Lane)
    requires Shipped(s)
    ensures Reaches(s, es, Solo(91.0, LEAD, lane)) && forall i :: 0 <= i < |es| ==> !es[i].ManualRetry?
    ensures lane.id == 1 && lane.row.requestId == 7 && lane.row.status == InFlight && lane.row.lockedBy == Some(second)
    ensures |lane.tokens| == lane.row.totalAttempts == lane.row.attempts == 2
    ensures lane.tokens[0].worker == "a" && lane.tokens[0].claim.budgetAttempt == 1
    ensures lane.tokens[0].fate == Held && lane.tokens[0].wire == Closed(0.0, 30.0)
    ensures lane.tokens[1].fate == Held && lane.tokens[1].wire == OnWire(90.0)
  {
    var accept := SoloAccept(s, r);
    var l0 := NewLane(1, NewRow(7, r, 0.0));
    var l1, l3: Lane;
    es, l1 := FirstSend(s, [accept], l0);
    SoloTick(s, 30.0, LEAD, l1, 90.0);
    Then(s, es, Solo(30.0, LEAD, l1), Tick(90.0));
    es := es + [Tick(90.0)];
    es, l3 := NextSend(s, es, 90.0, l1, second);
    SoloTick(s, 90.0, LEAD, l3, 91.0);
    Then(s, es, Solo(90.0, LEAD, l3), Tick(91.0));
    es, lane := es + [Tick(91.0)], l3;
  }

  /** A lane after it is claimed and sent at one instant. */
  ghost function Sent(s: Settings, now: Time, lane: Lane, worker: WorkerId): Lane
    requires Shipped(s)
    requires Due(lane.row, now)
  {
    var taken := Do(s, now, lane, Take(worker, LEAD));
    Do(s, now, taken, StartSend(|taken.tokens|))
  }

  lemma SentLane(s: Settings, now: Time, lane: Lane, worker: WorkerId)
    requires Shipped(s)
    requires Due(lane.row, now) && lane.row.totalAttempts == |lane.tokens|
    ensures var lane' := Sent(s, now, lane, worker);
            && lane'.id == lane.id && lane'.row == TakeRow(lane.row, now, worker, s.lease)
            && |lane'.tokens| == |lane.tokens| + 1 && lane'.tokens[..|lane.tokens|] == lane.tokens
            && var t := lane'.tokens[|lane.tokens|];
            && t.worker == worker && t.claim.budgetAttempt == lane.row.attempts + 1
            && t.fate == Held && t.wire == OnWire(now)
  {
  }

  lemma NextSend(s: Settings, es: Run, now: Time, lane: Lane, worker: WorkerId) returns (es': Run, lane': Lane)
    requires Shipped(s)
    requires Reaches(s, es, Solo(now, LEAD, lane)) && Due(lane.row, now) && lane.row.totalAttempts == |lane.tokens|
    ensures Reaches(s, es', Solo(now, LEAD, lane')) && es <= es'
    ensures forall i :: |es| <= i < |es'| ==> !es'[i].ManualRetry?
    ensures lane'.id == lane.id && lane'.row == TakeRow(lane.row, now, worker, s.lease)
    ensures |lane'.tokens| == |lane.tokens| + 1 && lane'.tokens[..|lane.tokens|] == lane.tokens
    ensures var t := lane'.tokens[|lane.tokens|];
            && t.worker == worker && t.claim.budgetAttempt == lane.row.attempts + 1
            && t.fate == Held && t.wire == OnWire(now)
  {
    lane' := Sent(s, now, lane, worker);
    SentLane(s, now, lane, worker);
    es' := ClaimAndSend(s, es, now, lane, worker);
  }

  lemma ClaimAndSend(s: Settings, es: Run, now: Time, lane: Lane, worker: WorkerId) returns (es': Run)
    requires Shipped(s)
    requires Reaches(s, es, Solo(now, LEAD, lane)) && Due(lane.row, now)
    ensures Reaches(s, es', Solo(now, LEAD, Sent(s, now, lane, worker))) && es <= es'
    ensures forall i :: |es| <= i < |es'| ==> !es'[i].ManualRetry?
  {
    var claim := SoloClaim(s, now, LEAD, lane, worker);
    Then(s, es, Solo(now, LEAD, lane), claim);
    var taken := Do(s, now, lane, Take(worker, LEAD));
    var e := SendStart(lane.id, |taken.tokens|);
    SoloDeed(s, now, LEAD, taken, e, StartSend(|taken.tokens|));
    Then(s, es + [claim], Solo(now, LEAD, taken), e);
    es' := es + [claim] + [e];
  }

  lemma FirstSend(s: Settings, es: Run, l0: Lane) returns (es': Run, lane: Lane)
    requires Shipped(s)
    requires Reaches(s, es, Solo(0.0, LEAD, l0)) && Due(l0.row, 0.0) && l0.id == 1 && l0.row.requestId == 7
    requires l0.row.totalAttempts == l0.row.attempts == 0 && l0.tokens == []
    ensures Reaches(s, es', Solo(30.0, LEAD, lane)) && es <= es'
    ensures forall i :: |es| <= i < |es'| ==> !es'[i].ManualRetry?
    ensures lane.id == 1 && lane.row.requestId == 7 && lane.row.status == InFlight && lane.row.claimableAt == 90.0
    ensures lane.row.totalAttempts == lane.row.attempts == |lane.tokens| == 1
    ensures lane.tokens[0].worker == "a" && lane.tokens[0].claim.budgetAttempt == 1
    ensures lane.tokens[0].fate == Held && lane.tokens[0].wire == Closed(0.0, 30.0)
  {
    var l1: Lane;
    es', l1 := NextSend(s, es, 0.0, l0, "a");
    SoloTick(s, 0.0, LEAD, l1, 30.0);
    Then(s, es', Solo(0.0, LEAD, l1), Tick(30.0));
    var e := SendEnd(1, 1);
    SoloDeed(s, 30.0, LEAD, l1, e, EndSend(1));
    Then(s, es' + [Tick(30.0)], Solo(30.0, LEAD, l1), e);
    es', lane := es' + [Tick(30.0)] + [e], Do(s, 30.0, l1, EndSend(1));
  }

  /** Late failure: the worker that lost its lease took the row again and sends again; then the
      failure of its first attempt arrives, releases the row, and five seconds later another
      worker sends while the second request is still on the wire. */
  lemma LateFailureOverlaps(r: Recipient) returns (es: Run, lane: Lane)
    ensures Reaches(DEFAULTS, es, Solo(96.0, LEAD, lane))
    ensures |lane.tokens| == 3 && lane.tokens[1].wire.OnWire? && lane.tokens[2].wire.OnWire?
  {
    var l: Lane;
    es, l := SecondAttempt(DEFAULTS, r, "a");
    var report := Report(1, 1, Sender.NoAnswer("timeout"), 0.0);
    assert Retry.Pow(2.0, 0) == 1.0;
    assert Retry.Delay(DEFAULTS, 1) == 5.0;
    var deed := Record(1, Sender.NoAnswer("timeout"), 0.0);
    var l6 := Do(DEFAULTS, 91.0, l, deed);
    assert l6.row.status == Pending && l6.row.claimableAt == 96.0 && l6.tokens[1] == l.tokens[1];
    SoloDeed(DEFAULTS, 91.0, LEAD, l, report, deed);
    Then(DEFAULTS, es, Solo(91.0, LEAD, l), report);
    SoloTick(DEFAULTS, 91.0, LEAD, l6, 96.0);
    Then(DEFAULTS, es + [report], Solo(91.0, LEAD, l6), Tick(96.0));
    es, lane := NextSend(DEFAULTS, es + [report] + [Tick(96.0)], 96.0, l6, "b");
  }

  /** Late success: another worker took the row and is sending when the success of the first
      attempt arrives; a manual retry that opts in to delivered rows puts the row back, and a
      third request goes out while the second is on the wire. No failure is involved. */
  lemma LateSuccessOverlaps(r: Recipient) returns (es: Run)
    ensures Legal(DEFAULTS, Initial(0.0), es) && AllPrompt(DEFAULTS, Initial(0.0), es)
    ensures 1 in Exec(DEFAULTS, Initial(0.0), es).lanes && Overlaps(DEFAULTS, Exec(DEFAULTS, Initial(0.0), es).lanes[1])
  {
    var l: Lane;
    es, l := SecondAttempt(DEFAULTS, r, "b");
    var report := Report(1, 1, Sender.Answer(200), 0.0);
    var deed := Record(1, Sender.Answer(200), 0.0);
    var l6 := Do(DEFAULTS, 91.0, l, deed);
    SoloDeed(DEFAULTS, 91.0, LEAD, l, report, deed);
    Then(DEFAULTS, es, Solo(91.0, LEAD, l), report);
    es := es + [report];
    RunKeeps(DEFAULTS, Initial(0.0), es);
    var tail := LooseRequestOverlaps(DEFAULTS, Solo(91.0, LEAD, l6), 1);
    Appended(DEFAULTS, Initial(0.0), es, tail);
    es := es + tail;
  }

  lemma SuccessDisplaces(s: Settings, l: Lane, request: Request)
    requires Shipped(s)
    requires LaneInv(s, 91.0, request, l) && |l.tokens| == 2 && l.row.status == InFlight
    requires l.tokens[0].fate == Held && l.tokens[0].wire.Closed? && l.tokens[0].claim.budgetAttempt == 1
    requires l.tokens[1].fate == Held && l.tokens[1].wire.OnWire?
    ensures var deed := Record(1, Sender.Answer(200), 0.0);
            && Can(s, 91.0, l, deed)
            && var l6 := Do(s, 91.0, l, deed);
            && l6.id == l.id && l6.row.status == Delivered && l6.row.totalAttempts == 2 && |l6.tokens| == 2
            && l6.tokens[1] == l.tokens[1]
            && 2 !in l6.journal && 2 !in l6.gaps && 2 in l6.displaced
  {
    assert TokenOk(s, 91.0, request, l, 0);
  }

  lemma CrashNow(s: Settings, now: Time, lane: Lane, n: nat) returns (e: Event, lane': Lane)
    requires Shipped(s)
    requires HasToken(lane, n) && lane.tokens[n - 1].fate == Held
    ensures var w := Solo(now, LEAD, lane);
            && e.Abandon? && Enabled(s, w, e) && PromptEvent(s, w, e)
            && Apply(s, w, e) == Solo(now, LEAD, lane')
    ensures lane' == lane.(tokens := lane'.tokens)
    ensures |lane'.tokens| == |lane.tokens| && lane'.tokens[n - 1].fate == Dropped
  {
    e := Abandon({(lane.id, n)});
    var w := Solo(now, LEAD, lane);
    forall d | d in w.lanes ensures Possible(s, w, e, d) {
    }
    OnlySendsArePrompted(s, w, e);
    SoloApply(s, now, LEAD, lane, e);
    assert (lane.id, n) in e.gone && n in DeedOf(w, e, lane.id).gone;
    lane' := Do(s, now, lane, DeedOf(w, e, lane.id));
  }

  /** The attempt that a late success displaces, by a worker that crashes, never reaches the journal,
      although nobody pressed retry: the row is delivered after two attempts, and the second is not on
      record. */
  lemma DisplacedAndForgotten(r: Recipient) returns (es: Run, lane: Lane)
    ensures Reaches(DEFAULTS, es, Solo(91.0, LEAD, lane)) && forall i :: 0 <= i < |es| ==> !es[i].ManualRetry?
    ensures lane.row.status == Delivered && lane.row.totalAttempts == |lane.tokens| == 2
    ensures 2 !in lane.journal && 2 !in lane.gaps && 2 in lane.displaced && lane.tokens[1].fate == Dropped
    ensures !LastEntryAgrees(lane)
  {
    var l: Lane;
    es, l := SecondAttempt(DEFAULTS, r, "b");
    RunKeeps(DEFAULTS, Initial(0.0), es);
    assert LaneAt(DEFAULTS, Solo(91.0, LEAD, l), 1);
    SuccessDisplaces(DEFAULTS, l, LEAD);
    var report, deed := Report(1, 1, Sender.Answer(200), 0.0), Record(1, Sender.Answer(200), 0.0);
    SoloDeed(DEFAULTS, 91.0, LEAD, l, report, deed);
    Then(DEFAULTS, es, Solo(91.0, LEAD, l), report);
    var crash: Event;
    crash, lane := CrashNow(DEFAULTS, 91.0, Do(DEFAULTS, 91.0, l, deed), 2);
    Then(DEFAULTS, es + [report], Solo(91.0, LEAD, Do(DEFAULTS, 91.0, l, deed)), crash);
    es := es + [report] + [crash];
  }

  // --- a late send --------------------------------------------------------------------------------

  /** A run without any report. */
  ghost predicate Silently(s: Settings, es: Run, w: World) {
    && Legal(s, Initial(0.0), es) && Exec(s, Initial(0.0), es) == w
    && forall i :: 0 <= i < |es| ==> !es[i].Report?
  }

  lemma {:induction false} LegalAppended(s: Settings, w: World, es: Run, e: Event)
    requires Legal(s, w, es) && Enabled(s, Exec(s, w, es), e)
    ensures Legal(s, w, es + [e]) && Exec(s, w, es + [e]) == Apply(s, Exec(s, w, es), e)
    decreases |es|
  {
    if es == [] {
      assert es + [e] == [e] && [e][1..] == [];
    } else {
      LegalAppended(s, Apply(s, w, es[0]), es[1..], e);
      assert (es + [e])[1..] == es[1..] + [e];
    }
  }

  lemma SilentlyThen(s: Settings, es: Run, w: World, e: Event)
    requires Shipped(s)
    requires Silently(s, es, w) && Enabled(s, w, e) && !e.Report?
    ensures Silently(s, es + [e], Apply(s, w, e))
  {
    LegalAppended(s, Initial(0.0), es, e);
  }

  lemma SilentSend(s: Settings, es: Run, now: Time, lane: Lane) returns (es': Run)
    requires Shipped(s)
    requires Silently(s, es, Solo(now, LEAD, lane)) && lane.tokens != []
    requires var t := lane.tokens[|lane.tokens| - 1]; t.fate == Held && t.wire == Unsent
    ensures Silently(s, es', Solo(now, LEAD, Do(s, now, lane, StartSend(|lane.tokens|))))
  {
    var w, e := Solo(now, LEAD, lane), SendStart(lane.id, |lane.tokens|);
    forall d | d in w.lanes ensures Possible(s, w, e, d) {
    }
    assert Enabled(s, w, e);
    SoloApply(s, now, LEAD, lane, e);
    SilentlyThen(s, es, w, e);
    es' := es + [e];
  }

  lemma SilentClaim(s: Settings, es: Run, now: Time, lane: Lane, worker: WorkerId) returns (es': Run)
    requires Shipped(s)
    requires Silently(s, es, Solo(now, LEAD, lane)) && Due(lane.row, now)
    ensures Silently(s, es', Solo(now, LEAD, Do(s, now, lane, Take(worker, LEAD))))
  {
    var e := SoloClaim(s, now, LEAD, lane, worker);
    SilentlyThen(s, es, Solo(now, LEAD, lane), e);
    es' := es + [e];
  }

  lemma SilentTick(s: Settings, es: Run, now: Time, lane: Lane, to: Time) returns (es': Run)
    requires Shipped(s)
    requires Silently(s, es, Solo(now, LEAD, lane)) && now <= to && MayWait(s, to, lane)
    ensures Silently(s, es', Solo(to, LEAD, lane))
  {
    SoloTick(s, now, LEAD, lane, to);
    SilentlyThen(s, es, Solo(now, LEAD, lane), Tick(to));
    es' := es + [Tick(to)];
  }

  /** The worker starts its request eighty seconds into a lease of ninety, and the lease runs out. */
  lemma SentLate(r: Recipient) returns (es: Run, lane: Lane)
    ensures Silently(DEFAULTS, es, Solo(90.0, LEAD, lane)) && lane.id == 1
    ensures Due(lane.row, 90.0) && |lane.tokens| == 1 && lane.tokens[0].wire == OnWire(80.0)
  {
    var accept := SoloAccept(DEFAULTS, r);
    var l0 := NewLane(1, NewRow(7, r, 0.0));
    es := SilentClaim(DEFAULTS, [accept], 0.0, l0, "a");
    var l1 := Do(DEFAULTS, 0.0, l0, Take("a", LEAD));
    es := SilentTick(DEFAULTS, es, 0.0, l1, 80.0);
    es := SilentSend(DEFAULTS, es, 80.0, l1);
    lane := Do(DEFAULTS, 80.0, l1, StartSend(1));
    es := SilentTick(DEFAULTS, es, 80.0, lane, 90.0);
  }

  /** Late send: after that, another worker claims the row and sends while the first request is still on
      the wire. Nobody reports anything. */
  lemma LateSendOverlaps(r: Recipient) returns (es: Run, lane: Lane)
    ensures Silently(DEFAULTS, es, Solo(90.0, LEAD, lane))
    ensures |lane.tokens| == 2 && lane.tokens[0].wire == OnWire(80.0) && lane.tokens[1].wire == OnWire(90.0)
  {
    var late;
    es, late := SentLate(r);
    es := SilentClaim(DEFAULTS, es, 90.0, late, "b");
    var taken := Do(DEFAULTS, 90.0, late, Take("b", LEAD));
    es := SilentSend(DEFAULTS, es, 90.0, taken);
    lane := Do(DEFAULTS, 90.0, taken, StartSend(2));
  }

  // --- a wrong verdict ------------------------------------------------------------------------------

  /** With a budget of two attempts, the late failure of the first puts the row back to wait although
      the second, which the same worker is sending, has spent the budget. */
  lemma LateFailureMisjudges(r: Recipient) returns (s: Settings, es: Run, lane: Lane)
    ensures Validated(s) && Reaches(s, es, Solo(91.0, LEAD, lane))
    ensures lane.row.status == Pending && lane.row.attempts == s.retryMaxAttempts == 2
  {
    s := DEFAULTS.(retryMaxAttempts := 2);
    var l: Lane;
    es, l := SecondAttempt(s, r, "a");
    var report, deed := Report(1, 1, Sender.NoAnswer("timeout"), 0.0), Record(1, Sender.NoAnswer("timeout"), 0.0);
    assert Retry.Pow(2.0, 0) == 1.0;
    assert Retry.Delay(s, 1) == 5.0;
    SoloDeed(s, 91.0, LEAD, l, report, deed);
    Then(s, es, Solo(91.0, LEAD, l), report);
    es, lane := es + [report], Do(s, 91.0, l, deed);
  }
}
