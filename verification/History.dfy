// What no event can undo: relations between an earlier and a later state of one run.

module History {
  import opened Types
  import opened Config
  import opened Rows
  import opened Lanes
  import opened Bookkeeping
  import opened Faults
  import opened Protocol
  import ClaimQuery
  import Retry
  import Sender

  // --- monotonicity ------------------------------------------------------------------------

  /** An entry stays, keeps its place in the budget, and changes only from 'unknown' to what
      the claim that owns its number reported. */
  ghost predicate EntryExtends(before: Entry, after: Entry, owner: Token) {
    || before == after
    || (before.outcome == Unknown && owner.fate.Reported? && after.outcome == OutcomeOf(owner.fate)
        && after.worker == owner.worker
        && after.budgetAttempt == before.budgetAttempt && after.startedAt == before.startedAt
        && after.requestId == before.requestId && after.url == before.url)
  }

  ghost predicate TokenExtends(before: Token, after: Token) {
    && after.worker == before.worker && after.claim == before.claim && after.claimedAt == before.claimedAt
    && (before.fate != Held ==> after.fate == before.fate)
    && (before.wire.Closed? ==> after.wire == before.wire)
  }

  ghost predicate LaneExtends(a: Lane, b: Lane) {
    && SameIdentity(a.row, b.row)
    && a.row.totalAttempts <= b.row.totalAttempts
    && a.row.totalAttempts - a.row.attempts <= b.row.totalAttempts - b.row.attempts
    && |a.tokens| <= |b.tokens|
    && (forall i :: 0 <= i < |a.tokens| ==> TokenExtends(a.tokens[i], b.tokens[i]))
    && (forall n :: n in a.journal ==>
          n in b.journal && HasToken(b, n) && EntryExtends(a.journal[n], b.journal[n], b.tokens[n - 1]))
  }

  lemma Reflexive(s: Settings, now: Time, request: Request, a: Lane)
    requires LaneInv(s, now, request, a)
    ensures LaneExtends(a, a)
  {
    forall n | n in a.journal ensures HasToken(a, n) {
      assert EntryOk(a, n);
    }
  }

  lemma Transitive(a: Lane, b: Lane, c: Lane)
    requires LaneExtends(a, b) && LaneExtends(b, c)
    requires forall n :: n in b.journal ==> EntryOk(b, n)
    ensures LaneExtends(a, c)
  {
    forall i | 0 <= i < |a.tokens| ensures TokenExtends(a.tokens[i], c.tokens[i]) {
      assert TokenExtends(a.tokens[i], b.tokens[i]) && TokenExtends(b.tokens[i], c.tokens[i]);
    }
    forall n | n in a.journal
      ensures n in c.journal && HasToken(c, n) && EntryExtends(a.journal[n], c.journal[n], c.tokens[n - 1])
    {
      assert EntryExtends(a.journal[n], b.journal[n], b.tokens[n - 1]);
      assert EntryExtends(b.journal[n], c.journal[n], c.tokens[n - 1]);
      assert TokenExtends(b.tokens[n - 1], c.tokens[n - 1]);
      assert EntryOk(b, n);
    }
  }

  lemma RecordExtends(s: Settings, now: Time, request: Request, lane: Lane, deed: Deed)
    requires Validated(s) && LaneInv(s, now, request, lane)
    requires deed.Record? && Can(s, now, lane, deed)
    ensures LaneExtends(lane, Do(s, now, lane, deed))
  {
    assert TokenOk(s, now, request, lane, deed.n - 1);
    RecordMoves(s, now, lane, deed);
    RecordedExtends(s, now, request, lane, deed, Do(s, now, lane, deed));
  }

  lemma RecordedExtends(s: Settings, now: Time, request: Request, lane: Lane, deed: Deed, lane': Lane)
    requires LaneInv(s, now, request, lane)
    requires deed.Record? && Can(s, now, lane, deed) && Recorded(s, now, lane, deed, lane')
    ensures LaneExtends(lane, lane')
  {
    assert TokenOk(s, now, request, lane, deed.n - 1);
    forall n | n in lane.journal
      ensures n in lane'.journal && HasToken(lane', n)
          && EntryExtends(lane.journal[n], lane'.journal[n], lane'.tokens[n - 1])
    {
      assert EntryOk(lane, n);
    }
  }

  lemma DeedExtends(s: Settings, now: Time, request: Request, lane: Lane, deed: Deed)
    requires Validated(s) && LaneInv(s, now, request, lane) && Can(s, now, lane, deed)
    ensures LaneExtends(lane, Do(s, now, lane, deed))
  {
    forall n | n in lane.journal ensures HasToken(lane, n) {
      assert EntryOk(lane, n);
    }
    match deed
    case Record(_, _, _) => RecordExtends(s, now, request, lane, deed);
    case Take(_, _) => TakeExtends(s, now, lane, deed);
    case _ => QuietExtends(s, now, lane, deed);
  }

  lemma TakeExtends(s: Settings, now: Time, lane: Lane, deed: Deed)
    requires deed.Take? && Can(s, now, lane, deed)
    requires forall n :: n in lane.journal ==> HasToken(lane, n)
    ensures LaneExtends(lane, Do(s, now, lane, deed))
  {
  }

  lemma QuietExtends(s: Settings, now: Time, lane: Lane, deed: Deed)
    requires !deed.Take? && !deed.Record? && Can(s, now, lane, deed)
    requires forall n :: n in lane.journal ==> HasToken(lane, n) && EntryOk(lane, n)
    ensures LaneExtends(lane, Do(s, now, lane, deed))
  {
  }

  lemma EventExtends(s: Settings, w: World, e: Event, d: Id)
    requires Validated(s) && d in w.lanes && LaneAt(s, w, d) && Enabled(s, w, e)
    ensures d in Apply(s, w, e).lanes && LaneExtends(w.lanes[d], Apply(s, w, e).lanes[d])
  {
    EventKeepsLane(s, w, e, d);
    var request := w.requests[w.lanes[d].row.requestId];
    if e.Tick? || e.Accept? || e.Attach? {
      Reflexive(s, w.now, request, w.lanes[d]);
    } else {
      DeedExtends(s, w.now, request, w.lanes[d], DeedOf(w, e, d));
    }
  }

  /** Over any run: no delivery, claim or journal entry disappears, known facts are never
      rewritten, `total_attempts` and `total_attempts - attempts` never fall. */
  lemma {:induction false} HistoryOnlyGrows(s: Settings, w: World, es: Run, d: Id)
    requires Validated(s) && WorldInv(s, w) && Legal(s, w, es) && d in w.lanes
    ensures d in Exec(s, w, es).lanes && LaneExtends(w.lanes[d], Exec(s, w, es).lanes[d])
    ensures w.now <= Exec(s, w, es).now
    decreases |es|
  {
    assert LaneAt(s, w, d);
    if es == [] {
      Reflexive(s, w.now, w.requests[w.lanes[d].row.requestId], w.lanes[d]);
    } else {
      var w' := Apply(s, w, es[0]);
      EventExtends(s, w, es[0], d);
      EventKeeps(s, w, es[0]);
      HistoryOnlyGrows(s, w', es[1..], d);
      assert LaneAt(s, w', d);
      Transitive(w.lanes[d], w'.lanes[d], Exec(s, w, es).lanes[d]);
    }
  }

  /** A known fact stays in the journal word for word. */
  lemma KnownEntryStays(s: Settings, w: World, es: Run, d: Id, n: nat)
    requires Validated(s) && WorldInv(s, w) && Legal(s, w, es)
    requires d in w.lanes && n in w.lanes[d].journal && w.lanes[d].journal[n].outcome != Unknown
    ensures d in Exec(s, w, es).lanes && n in Exec(s, w, es).lanes[d].journal
    ensures Exec(s, w, es).lanes[d].journal[n] == w.lanes[d].journal[n]
  {
    HistoryOnlyGrows(s, w, es, d);
  }

  // --- success is absorbing ------------------------------------------------------------------

  ghost predicate OptsIn(e: Event, d: Id) {
    e.ManualRetry? && e.includeDelivered && d in e.sel
  }

  lemma {:induction false} DeliveredStays(s: Settings, w: World, es: Run, d: Id)
    requires Validated(s) && WorldInv(s, w) && Legal(s, w, es) && d in w.lanes
    requires w.lanes[d].row.status == Delivered
    requires forall i :: 0 <= i < |es| ==> !OptsIn(es[i], d)
    ensures d in Exec(s, w, es).lanes
    ensures Exec(s, w, es).lanes[d].row == w.lanes[d].row
    ensures |Exec(s, w, es).lanes[d].tokens| == |w.lanes[d].tokens|
    decreases |es|
  {
    if es != [] {
      assert LaneAt(s, w, d);
      EventKeepsLane(s, w, es[0], d);
      EventKeeps(s, w, es[0]);
      assert !OptsIn(es[0], d);
      DeliveredKeeps(s, w.now, w.requests[w.lanes[d].row.requestId], w.lanes[d], DeedOf(w, es[0], d));
      DeliveredStays(s, Apply(s, w, es[0]), es[1..], d);
    }
  }

  lemma DeliveredKeeps(s: Settings, now: Time, request: Request, lane: Lane, deed: Deed)
    requires LaneInv(s, now, request, lane) && Can(s, now, lane, deed)
    requires lane.row.status == Delivered && deed != Reset(true)
    ensures Do(s, now, lane, deed).row == lane.row && |Do(s, now, lane, deed).tokens| == |lane.tokens|
  {
  }

  lemma ReportedSuccessDelivers(s: Settings, w: World, e: Event)
    requires Validated(s) && WorldInv(s, w) && Enabled(s, w, e)
    requires e.Report? && Sender.ErrorKind(e.response).None?
    ensures e.d in w.lanes && e.d in Apply(s, w, e).lanes
    ensures var lane := Apply(s, w, e).lanes[e.d];
            && lane.row.status == Delivered
            && lane.row.deliveredAt
               == (if w.lanes[e.d].row.status == Delivered then w.lanes[e.d].row.deliveredAt else Some(w.now))
            && |lane.tokens| == |w.lanes[e.d].tokens|
            && e.n in lane.journal && HasToken(lane, e.n) && lane.journal[e.n].outcome == Success
  {
    var lane := w.lanes[e.d];
    assert LaneAt(s, w, e.d);
    var deed := DeedOf(w, e, e.d);
    assert Possible(s, w, e, e.d) && deed == Record(e.n, e.response, e.draw);
    assert TokenOk(s, w.now, w.requests[lane.row.requestId], lane, e.n - 1);
    RecordMoves(s, w.now, lane, deed);
    SuccessMoves(s, w.now, lane, deed);
    RecordEntries(s, w.now, w.requests[lane.row.requestId], lane, deed, Do(s, w.now, lane, deed));
    assert EntryOk(Do(s, w.now, lane, deed), e.n);
  }

  /** A reported success, however late - after the lease is lost, after the row went back to
      pending or to failed - makes the row delivered with a success entry, and the row is never
      claimed again until a requeue opts in to delivered rows. */
  lemma SuccessIsAbsorbing(s: Settings, w: World, e: Event, es: Run)
    requires Validated(s) && WorldInv(s, w) && Enabled(s, w, e)
    requires e.Report? && Sender.ErrorKind(e.response).None?
    requires Legal(s, Apply(s, w, e), es)
    requires forall i :: 0 <= i < |es| ==> !OptsIn(es[i], e.d)
    ensures e.d in w.lanes && e.d in Exec(s, Apply(s, w, e), es).lanes
    ensures var lane := Exec(s, Apply(s, w, e), es).lanes[e.d];
            && lane.row.status == Delivered
            && e.n in lane.journal && lane.journal[e.n].outcome == Success
            && |lane.tokens| == |w.lanes[e.d].tokens|
  {
    ReportedSuccessDelivers(s, w, e);
    EventKeeps(s, w, e);
    DeliveredStays(s, Apply(s, w, e), es, e.d);
    KnownEntryStays(s, Apply(s, w, e), es, e.d, e.n);
  }

  // --- leases ----------------------------------------------------------------------------------

  predicate Reports(e: Event, d: Id) {
    e.Report? && e.d == d
  }

  lemma LeasedKeeps(s: Settings, now: Time, request: Request, lane: Lane, deed: Deed)
    requires LaneInv(s, now, request, lane) && Can(s, now, lane, deed)
    requires lane.row.status == InFlight && now < lane.row.leaseExpiresAt.value && !deed.Record?
    ensures Do(s, now, lane, deed).row == lane.row && |Do(s, now, lane, deed).tokens| == |lane.tokens|
  {
  }

  /** A row handed to a worker is not handed out again, requeued or otherwise touched until
      somebody reports on it or its lease runs out. */
  lemma {:induction false} LeaseIsRespected(s: Settings, w: World, es: Run, d: Id)
    requires Validated(s) && WorldInv(s, w) && Legal(s, w, es) && d in w.lanes
    requires w.lanes[d].row.status == InFlight && w.lanes[d].row.leaseExpiresAt.Some?
    requires forall i :: 0 <= i < |es| ==> !Reports(es[i], d)
    requires Exec(s, w, es).now < w.lanes[d].row.leaseExpiresAt.value
    ensures d in Exec(s, w, es).lanes
    ensures Exec(s, w, es).lanes[d].row == w.lanes[d].row
    ensures |Exec(s, w, es).lanes[d].tokens| == |w.lanes[d].tokens|
    decreases |es|
  {
    if es != [] {
      assert LaneAt(s, w, d);
      HistoryOnlyGrows(s, w, es, d);
      EventKeepsLane(s, w, es[0], d);
      EventKeeps(s, w, es[0]);
      assert !Reports(es[0], d);
      LeasedKeeps(s, w.now, w.requests[w.lanes[d].row.requestId], w.lanes[d], DeedOf(w, es[0], d));
      LeaseIsRespected(s, Apply(s, w, es[0]), es[1..], d);
    }
  }

  // --- budgets ---------------------------------------------------------------------------------

  predicate Requeues(e: Event, d: Id) {
    e.ManualRetry? && d in e.sel
  }

  function Reclaimed(w: World, e: Event, d: Id): nat {
    if e.ClaimBatch? && d in e.picks && d in w.lanes && w.lanes[d].row.status == InFlight then 1 else 0
  }

  /** How often the run took d over from a lease that ran out. */
  ghost function Reclaims(s: Settings, w: World, es: Run, d: Id): nat
    requires Legal(s, w, es)
    decreases |es|
  {
    if es == [] then 0
    else
      Reclaimed(w, es[0], d) + Reclaims(s, Apply(s, w, es[0]), es[1..], d)
  }

  /** Claims a row can still be given before its budget is spent. */
  function Slack(s: Settings, row: Delivery): nat {
    match row.status
    case Pending => Max(0, s.retryMaxAttempts - row.attempts)
    case InFlight => Max(0, s.retryMaxAttempts - row.attempts)
    case _ => 0
  }

  /** Between requeues both counters rise together, once per claim. */
  lemma CountersMoveTogether(s: Settings, now: Time, request: Request, lane: Lane, deed: Deed)
    requires LaneInv(s, now, request, lane) && Can(s, now, lane, deed) && !deed.Reset?
    ensures var lane' := Do(s, now, lane, deed);
            && lane'.row.totalAttempts - lane.row.totalAttempts == |lane'.tokens| - |lane.tokens|
            && lane'.row.attempts - lane.row.attempts == |lane'.tokens| - |lane.tokens|
            && |lane'.tokens| - |lane.tokens| == if deed.Take? then 1 else 0
  {
  }

  lemma SlackStep(s: Settings, now: Time, request: Request, lane: Lane, deed: Deed)
    requires Validated(s) && LaneInv(s, now, request, lane) && BudgetRespected(s, lane.row)
    requires Can(s, now, lane, deed) && !deed.Reset?
    ensures var lane' := Do(s, now, lane, deed);
            (if deed.Take? then 1 else 0) + Slack(s, lane'.row)
            <= Slack(s, lane.row) + if deed.Take? && lane.row.status == InFlight then 1 else 0
  {
    if deed.Record? {
      if Sender.ErrorKind(deed.response).Some? {
        FailureMoves(s, now, request, lane, deed);
      } else {
        SuccessMoves(s, now, lane, deed);
      }
    }
  }

  ghost predicate SlackSpent(s: Settings, lane: Lane, lane': Lane, lost: nat) {
    && |lane'.tokens| - |lane.tokens| + Slack(s, lane'.row) <= Slack(s, lane.row) + lost
    && lane'.row.attempts - lane.row.attempts == |lane'.tokens| - |lane.tokens|
    && lane'.row.totalAttempts - lane.row.totalAttempts == |lane'.tokens| - |lane.tokens|
  }

  lemma DeedSlack(s: Settings, now: Time, request: Request, lane: Lane, deed: Deed)
    requires Validated(s) && LaneInv(s, now, request, lane) && BudgetRespected(s, lane.row)
    requires Can(s, now, lane, deed) && !deed.Reset?
    ensures SlackSpent(s, lane, Do(s, now, lane, deed), if deed.Take? && lane.row.status == InFlight then 1 else 0)
  {
    SlackStep(s, now, request, lane, deed);
    CountersMoveTogether(s, now, request, lane, deed);
  }

  lemma DeedOfSlack(s: Settings, w: World, e: Event, d: Id)
    requires d in w.lanes && LaneAt(s, w, d) && !Requeues(e, d)
    ensures !DeedOf(w, e, d).Reset?
    ensures Reclaimed(w, e, d) == if DeedOf(w, e, d).Take? && w.lanes[d].row.status == InFlight then 1 else 0
  {
  }

  lemma EventSlack(s: Settings, w: World, e: Event, d: Id)
    requires Validated(s) && d in w.lanes && LaneAt(s, w, d) && Enabled(s, w, e)
    requires BudgetRespected(s, w.lanes[d].row) && !Requeues(e, d)
    ensures d in Apply(s, w, e).lanes
    ensures SlackSpent(s, w.lanes[d], Apply(s, w, e).lanes[d], Reclaimed(w, e, d))
  {
    EventKeepsLane(s, w, e, d);
    DeedOfSlack(s, w, e, d);
    if !(e.Tick? || e.Accept? || e.Attach?) {
      DeedSlack(s, w.now, w.requests[w.lanes[d].row.requestId], w.lanes[d], DeedOf(w, e, d));
    }
  }

  lemma EventKeepsBudget(s: Settings, w: World, e: Event, d: Id)
    requires Validated(s) && d in w.lanes && LaneAt(s, w, d) && Enabled(s, w, e)
    requires BudgetRespected(s, w.lanes[d].row) && !Faulty(Misjudgement, s, w, e)
    ensures d in Apply(s, w, e).lanes && BudgetRespected(s, Apply(s, w, e).lanes[d].row)
  {
    EventKeepsLane(s, w, e, d);
    if !(e.Tick? || e.Accept? || e.Attach?) {
      BudgetExact(s, w.now, w.requests[w.lanes[d].row.requestId], w.lanes[d], DeedOf(w, e, d));
    }
  }

  lemma SlackAddsUp(s: Settings, a: Lane, b: Lane, c: Lane, lost: nat, lostLater: nat)
    requires SlackSpent(s, a, b, lost) && SlackSpent(s, b, c, lostLater)
    ensures SlackSpent(s, a, c, lost + lostLater)
  {
  }

  /** From any state, between requeues, a delivery is claimed at most as often as its budget allows
      plus once per lease that was lost, and what it was not claimed is what is left of its budget. */
  lemma {:induction false} ClaimsAreBounded(s: Settings, w: World, es: Run, d: Id)
    requires Validated(s) && WorldInv(s, w) && Legal(s, w, es) && d in w.lanes
    requires Free(Misjudgement, s, w, es) && BudgetRespected(s, w.lanes[d].row)
    requires forall i :: 0 <= i < |es| ==> !Requeues(es[i], d)
    ensures d in Exec(s, w, es).lanes && BudgetRespected(s, Exec(s, w, es).lanes[d].row)
    ensures SlackSpent(s, w.lanes[d], Exec(s, w, es).lanes[d], Reclaims(s, w, es, d))
    decreases |es|
  {
    if es != [] {
      assert LaneAt(s, w, d) && !Requeues(es[0], d);
      var w' := Apply(s, w, es[0]);
      EventSlack(s, w, es[0], d);
      EventKeepsBudget(s, w, es[0], d);
      EventKeeps(s, w, es[0]);
      ClaimsAreBounded(s, w', es[1..], d);
      SlackAddsUp(s, w.lanes[d], w'.lanes[d], Exec(s, w, es).lanes[d],
                  Reclaimed(w, es[0], d), Reclaims(s, w', es[1..], d));
    }
  }

  /** So it comes to an end: once it was claimed that often, a delivery that is not being sent is
      delivered or has failed. */
  lemma BudgetSpentSettles(s: Settings, w: World, es: Run, d: Id)
    requires Validated(s) && WorldInv(s, w) && Legal(s, w, es) && d in w.lanes
    requires Free(Misjudgement, s, w, es) && BudgetRespected(s, w.lanes[d].row)
    requires forall i :: 0 <= i < |es| ==> !Requeues(es[i], d)
    ensures d in Exec(s, w, es).lanes
    ensures var lane, lane' := w.lanes[d], Exec(s, w, es).lanes[d];
            var bound := Slack(s, lane.row) + Reclaims(s, w, es, d);
            && |lane'.tokens| - |lane.tokens| <= bound
            && (|lane'.tokens| - |lane.tokens| == bound && lane'.row.status != InFlight ==>
                  lane'.row.status == Delivered || lane'.row.status == Failed)
  {
    ClaimsAreBounded(s, w, es, d);
  }

  // --- the budget of a new delivery, in every run ------------------------------------------------

  function UpTo(k: nat): (ns: set<nat>)
    ensures |ns| == k && forall n :: n in ns <==> 1 <= n <= k
  {
    if k == 0 then {} else UpTo(k - 1) + {k}
  }

  predicate TriedAt(s: Settings, lane: Lane, n: nat) {
    HasToken(lane, n) && lane.tokens[n - 1].fate.Reported?
    && lane.tokens[n - 1].claim.budgetAttempt < s.retryMaxAttempts
  }

  /** The attempts that were reported with budget left: each can have bought one more claim. */
  function Tried(s: Settings, lane: Lane): set<nat> {
    set n | n in UpTo(|lane.tokens|) && TriedAt(s, lane, n)
  }

  function Waits(row: Delivery): nat {
    if row.status == Pending then 1 else 0
  }

  /** Since a, every claim was paid for: by the row waiting then, by an attempt reported since, or by a
      lost lease. */
  ghost predicate Paid(s: Settings, a: Lane, b: Lane, lost: nat) {
    && |b.tokens| - |a.tokens| + Waits(b.row) + |Tried(s, a)| <= Waits(a.row) + |Tried(s, b)| + lost
  }

  /** Without requeues the positions in the budget are the attempt numbers. */
  ghost predicate Straight(lane: Lane) {
    && lane.row.attempts == |lane.tokens|
    && forall i :: 0 <= i < |lane.tokens| ==> lane.tokens[i].claim.budgetAttempt == i + 1
  }

  lemma TriedStays(s: Settings, a: Lane, b: Lane)
    requires |a.tokens| <= |b.tokens|
    requires forall i :: 0 <= i < |a.tokens| ==> TokenExtends(a.tokens[i], b.tokens[i])
    ensures Tried(s, a) <= Tried(s, b)
  {
    forall n | n in Tried(s, a) ensures n in Tried(s, b) {
      assert TokenExtends(a.tokens[n - 1], b.tokens[n - 1]);
    }
  }

  lemma MoreTried(a: set<nat>, b: set<nat>, n: nat)
    requires a <= b && n in b && n !in a
    ensures |b| >= |a| + 1
  {
    ClaimQuery.SubsetSize(a, b - {n});
  }

  lemma DeedPaid(s: Settings, now: Time, request: Request, lane: Lane, deed: Deed)
    requires Validated(s) && LaneInv(s, now, request, lane) && Can(s, now, lane, deed) && !deed.Reset?
    ensures Paid(s, lane, Do(s, now, lane, deed), if deed.Take? && lane.row.status == InFlight then 1 else 0)
  {
    var lane' := Do(s, now, lane, deed);
    DeedExtends(s, now, request, lane, deed);
    TriedStays(s, lane, lane');
    ClaimQuery.SubsetSize(Tried(s, lane), Tried(s, lane'));
    if deed.Record? {
      ReportPaid(s, now, request, lane, deed);
    }
  }

  /** A report puts the row back to wait only if it was made with budget left. */
  lemma WaitIsTried(s: Settings, now: Time, request: Request, lane: Lane, deed: Deed)
    requires Validated(s) && LaneInv(s, now, request, lane) && Can(s, now, lane, deed) && deed.Record?
    ensures var lane' := Do(s, now, lane, deed);
            && |lane'.tokens| == |lane.tokens| && !TriedAt(s, lane, deed.n)
            && (lane'.row.status == Pending && lane.row.status != Pending ==> TriedAt(s, lane', deed.n))
  {
    assert TokenOk(s, now, request, lane, deed.n - 1);
    RecordMoves(s, now, lane, deed);
    if Sender.ErrorKind(deed.response).Some? {
      FailureMoves(s, now, request, lane, deed);
    }
  }

  lemma ReportPaid(s: Settings, now: Time, request: Request, lane: Lane, deed: Deed)
    requires Validated(s) && LaneInv(s, now, request, lane) && Can(s, now, lane, deed) && deed.Record?
    requires Tried(s, lane) <= Tried(s, Do(s, now, lane, deed))
    requires |Tried(s, lane)| <= |Tried(s, Do(s, now, lane, deed))|
    ensures Paid(s, lane, Do(s, now, lane, deed), 0)
  {
    var lane' := Do(s, now, lane, deed);
    WaitIsTried(s, now, request, lane, deed);
    if lane'.row.status == Pending && lane.row.status != Pending {
      MoreTried(Tried(s, lane), Tried(s, lane'), deed.n);
    }
  }

  lemma DeedStraight(s: Settings, now: Time, request: Request, lane: Lane, deed: Deed)
    requires Validated(s) && LaneInv(s, now, request, lane) && Can(s, now, lane, deed) && !deed.Reset?
    requires Straight(lane)
    ensures Straight(Do(s, now, lane, deed))
  {
    var lane' := Do(s, now, lane, deed);
    CountersMoveTogether(s, now, request, lane, deed);
    DeedExtends(s, now, request, lane, deed);
    forall i | 0 <= i < |lane'.tokens| ensures lane'.tokens[i].claim.budgetAttempt == i + 1 {
      if i < |lane.tokens| { assert TokenExtends(lane.tokens[i], lane'.tokens[i]); }
    }
  }

  lemma EventPaid(s: Settings, w: World, e: Event, d: Id)
    requires Validated(s) && d in w.lanes && LaneAt(s, w, d) && Enabled(s, w, e) && !Requeues(e, d)
    ensures d in Apply(s, w, e).lanes && Paid(s, w.lanes[d], Apply(s, w, e).lanes[d], Reclaimed(w, e, d))
    ensures Straight(w.lanes[d]) ==> Straight(Apply(s, w, e).lanes[d])
  {
    EventKeepsLane(s, w, e, d);
    DeedOfSlack(s, w, e, d);
    if !(e.Tick? || e.Accept? || e.Attach?) {
      DeedPaid(s, w.now, w.requests[w.lanes[d].row.requestId], w.lanes[d], DeedOf(w, e, d));
      if Straight(w.lanes[d]) {
        DeedStraight(s, w.now, w.requests[w.lanes[d].row.requestId], w.lanes[d], DeedOf(w, e, d));
      }
    }
  }

  lemma PaidAddsUp(s: Settings, a: Lane, b: Lane, c: Lane, lost: nat, lostLater: nat)
    requires Paid(s, a, b, lost) && Paid(s, b, c, lostLater)
    ensures Paid(s, a, c, lost + lostLater)
  {
  }

  lemma {:induction false} RunPaid(s: Settings, w: World, es: Run, d: Id)
    requires Validated(s) && WorldInv(s, w) && Legal(s, w, es) && d in w.lanes && Straight(w.lanes[d])
    requires forall i :: 0 <= i < |es| ==> !Requeues(es[i], d)
    ensures d in Exec(s, w, es).lanes && Straight(Exec(s, w, es).lanes[d])
    ensures Paid(s, w.lanes[d], Exec(s, w, es).lanes[d], Reclaims(s, w, es, d))
    decreases |es|
  {
    if es != [] {
      assert LaneAt(s, w, d) && !Requeues(es[0], d);
      var w' := Apply(s, w, es[0]);
      EventPaid(s, w, es[0], d);
      EventKeeps(s, w, es[0]);
      RunPaid(s, w', es[1..], d);
      PaidAddsUp(s, w.lanes[d], w'.lanes[d], Exec(s, w, es).lanes[d],
                 Reclaimed(w, es[0], d), Reclaims(s, w', es[1..], d));
    }
  }

  lemma TriedIsBounded(s: Settings, lane: Lane)
    requires Validated(s) && Straight(lane)
    ensures |Tried(s, lane)| <= s.retryMaxAttempts - 1
  {
    var below := UpTo(s.retryMaxAttempts - 1);
    forall n | n in Tried(s, lane) ensures n in below {
    }
    ClaimQuery.SubsetSize(Tried(s, lane), below);
  }

  /** In every run, however late or wrong its reports: until it is requeued, a new delivery is claimed
      at most `retry_max_attempts` times plus once per lost lease, and a delivery claimed that often
      and not being sent is delivered or has failed. */
  lemma EveryDeliverySettles(s: Settings, w: World, es: Run, d: Id)
    requires Validated(s) && WorldInv(s, w) && Legal(s, w, es)
    requires d in w.lanes && w.lanes[d].tokens == [] && w.lanes[d].row.status == Pending
    requires forall i :: 0 <= i < |es| ==> !Requeues(es[i], d)
    ensures d in Exec(s, w, es).lanes
    ensures var lane := Exec(s, w, es).lanes[d];
            var bound := s.retryMaxAttempts + Reclaims(s, w, es, d);
            && |lane.tokens| + Waits(lane.row) <= bound
            && (|lane.tokens| == bound && lane.row.status != InFlight ==>
                  lane.row.status == Delivered || lane.row.status == Failed)
  {
    assert LaneAt(s, w, d);
    RunPaid(s, w, es, d);
    TriedIsBounded(s, Exec(s, w, es).lanes[d]);
  }

  // --- where the budget starts over ------------------------------------------------------------

  predicate Claims(e: Event, d: Id) {
    e.ClaimBatch? && d in e.picks
  }

  /** The event puts d back in the queue: it selects d, and d is neither leased nor delivered
      without the opt-in. */
  predicate PutsBack(w: World, e: Event, d: Id) {
    e.ManualRetry? && d in e.sel && d in w.lanes
    && Classify(w.lanes[d].row, e.includeDelivered, w.now) == Requeued
  }

  ghost predicate PutBack(s: Settings, w: World, es: Run, d: Id)
    requires Legal(s, w, es)
    decreases |es|
  {
    es != [] && (PutsBack(w, es[0], d) || PutBack(s, Apply(s, w, es[0]), es[1..], d))
  }

  lemma UnclaimedDeed(s: Settings, now: Time, request: Request, lane: Lane, deed: Deed)
    requires LaneInv(s, now, request, lane) && Can(s, now, lane, deed) && !deed.Take?
    ensures |Do(s, now, lane, deed).tokens| == |lane.tokens|
    ensures Do(s, now, lane, deed).row.attempts
         == if deed.Reset? && Classify(lane.row, deed.includeDelivered, now) == Requeued then 0 else lane.row.attempts
  {
    if !deed.Reset? {
      CountersMoveTogether(s, now, request, lane, deed);
    }
  }

  lemma UnclaimedDeedOf(w: World, e: Event, d: Id)
    requires d in w.lanes && !Claims(e, d)
    ensures var deed := DeedOf(w, e, d);
            && !deed.Take?
            && (PutsBack(w, e, d)
                <==> deed.Reset? && Classify(w.lanes[d].row, deed.includeDelivered, w.now) == Requeued)
  {
  }

  lemma UnclaimedEvent(s: Settings, w: World, e: Event, d: Id)
    requires Validated(s) && d in w.lanes && LaneAt(s, w, d) && Enabled(s, w, e) && !Claims(e, d)
    ensures d in Apply(s, w, e).lanes && |Apply(s, w, e).lanes[d].tokens| == |w.lanes[d].tokens|
    ensures Apply(s, w, e).lanes[d].row.attempts == if PutsBack(w, e, d) then 0 else w.lanes[d].row.attempts
  {
    EventKeepsLane(s, w, e, d);
    if !(e.Tick? || e.Accept? || e.Attach?) {
      UnclaimedDeedOf(w, e, d);
      UnclaimedDeed(s, w.now, w.requests[w.lanes[d].row.requestId], w.lanes[d], DeedOf(w, e, d));
    }
  }

  lemma {:induction false} UnclaimedRun(s: Settings, w: World, es: Run, d: Id)
    requires Validated(s) && WorldInv(s, w) && Legal(s, w, es) && d in w.lanes
    requires forall i :: 0 <= i < |es| ==> !Claims(es[i], d)
    ensures d in Exec(s, w, es).lanes && |Exec(s, w, es).lanes[d].tokens| == |w.lanes[d].tokens|
    ensures Exec(s, w, es).lanes[d].row.attempts == if PutBack(s, w, es, d) then 0 else w.lanes[d].row.attempts
    decreases |es|
  {
    if es != [] {
      assert LaneAt(s, w, d) && !Claims(es[0], d);
      UnclaimedEvent(s, w, es[0], d);
      EventKeeps(s, w, es[0]);
      UnclaimedRun(s, Apply(s, w, es[0]), es[1..], d);
    }
  }

  lemma ClaimedToken(s: Settings, w: World, e: Event, d: Id)
    requires Validated(s) && WorldInv(s, w) && Enabled(s, w, e) && Claims(e, d)
    ensures d in w.lanes && d in Apply(s, w, e).lanes
    ensures var lane, lane' := w.lanes[d], Apply(s, w, e).lanes[d];
            && |lane'.tokens| == |lane.tokens| + 1
            && lane'.row.attempts == lane.row.attempts + 1
            && lane'.tokens[|lane.tokens|].claim.budgetAttempt == lane'.row.attempts
            && lane'.tokens[|lane.tokens|].claim.attemptNumber == |lane'.tokens|
  {
    assert d in w.lanes;
    assert LaneAt(s, w, d) && Possible(s, w, e, d);
  }

  /** Of two successive claims of a delivery, the second counts on from the first, unless a manual
      retry put the delivery back in between: then, and only then, it starts over at 1. */
  lemma BudgetRestartsAtRequeue(s: Settings, w: World, first: Event, es: Run, second: Event, d: Id)
    requires Validated(s) && WorldInv(s, w) && Enabled(s, w, first) && Claims(first, d)
    requires Legal(s, Apply(s, w, first), es) && forall i :: 0 <= i < |es| ==> !Claims(es[i], d)
    requires Enabled(s, Exec(s, Apply(s, w, first), es), second) && Claims(second, d)
    ensures d in Apply(s, w, first).lanes
    ensures var w1 := Apply(s, w, first);
            var w2 := Apply(s, Exec(s, w1, es), second);
            var n := |w1.lanes[d].tokens|;
            && n >= 1 && d in w2.lanes && |w2.lanes[d].tokens| == n + 1
            && w2.lanes[d].tokens[n].claim.budgetAttempt
               == (if PutBack(s, w1, es, d) then 1 else w1.lanes[d].tokens[n - 1].claim.budgetAttempt + 1)
            && w1.lanes[d].tokens[n - 1].claim.budgetAttempt >= 1
  {
    var w1 := Apply(s, w, first);
    ClaimedToken(s, w, first, d);
    EventKeeps(s, w, first);
    UnclaimedRun(s, w1, es, d);
    RunKeeps(s, w1, es);
    ClaimedToken(s, Exec(s, w1, es), second, d);
  }

  /** The event is a report on d that moves its row: a success unless the row is delivered already, a
      failure if the row is in flight under the name of the worker that reports. */
  predicate ReportMoves(w: World, e: Event, d: Id) {
    && e.Report? && e.d == d && d in w.lanes && HasToken(w.lanes[d], e.n)
    && var row := w.lanes[d].row;
    if Sender.ErrorKind(e.response).None? then row.status != Delivered
    else row.status == InFlight && row.lockedBy == Some(w.lanes[d].tokens[e.n - 1].worker)
  }

  lemma IdleReport(s: Settings, w: World, e: Event, d: Id)
    requires Validated(s) && d in w.lanes && LaneAt(s, w, d) && Enabled(s, w, e)
    requires e.Report? && e.d == d && !ReportMoves(w, e, d)
    ensures d in Apply(s, w, e).lanes && Apply(s, w, e).lanes[d].row == w.lanes[d].row
    ensures |Apply(s, w, e).lanes[d].tokens| == |w.lanes[d].tokens|
  {
    var lane := w.lanes[d];
    assert Possible(s, w, e, d);
    assert TokenOk(s, w.now, w.requests[lane.row.requestId], lane, e.n - 1);
    RecordMoves(s, w.now, lane, DeedOf(w, e, d));
    if Sender.ErrorKind(e.response).Some? {
      FailureMoves(s, w.now, w.requests[lane.row.requestId], lane, DeedOf(w, e, d));
    } else {
      SuccessMoves(s, w.now, lane, DeedOf(w, e, d));
    }
  }

  // --- what one report or one reclaim does -------------------------------------------------------

  /** A failure of the owner waits for its place in the schedule, jitter included, or gives up
      when the budget is spent. */
  lemma FailureIsPaced(s: Settings, now: Time, request: Request, lane: Lane, deed: Deed)
    requires Validated(s) && LaneInv(s, now, request, lane)
    requires deed.Record? && Can(s, now, lane, deed) && Sender.ErrorKind(deed.response).Some?
    requires lane.row.status == InFlight && lane.row.lockedBy == Some(lane.tokens[deed.n - 1].worker)
    ensures var b := lane.tokens[deed.n - 1].claim.budgetAttempt;
            var row' := Do(s, now, lane, deed).row;
            && b >= 1
            && (b >= s.retryMaxAttempts ==> row'.status == Failed && row'.failedAt == Some(now))
            && (b < s.retryMaxAttempts ==> row'.status == Pending && InBand(s, b, row'.claimableAt - now))
  {
    assert TokenOk(s, now, request, lane, deed.n - 1);
    Retry.JitterBand(s, lane.tokens[deed.n - 1].claim.budgetAttempt, deed.draw);
  }

  ghost predicate InBand(s: Settings, attemptsMade: nat, pause: real)
    requires attemptsMade >= 1
  {
    var delay := Retry.Delay(s, attemptsMade);
    && Retry.MIN_DELAY <= pause
    && (1.0 - s.retryJitter) * delay <= pause <= MaxR(Retry.MIN_DELAY, (1.0 + s.retryJitter) * delay)
  }

  /** Taking a row over from a lease that ran out always adds the placeholder of the lost
      attempt, from its own start to now, under the name of the worker that noticed; any other
      claim leaves the journal alone. */
  lemma ReclaimIsLogged(s: Settings, now: Time, request: Request, lane: Lane, deed: Deed)
    requires Validated(s) && LaneInv(s, now, request, lane)
    requires deed.Take? && Can(s, now, lane, deed)
    ensures var n := |lane.tokens|;
            var journal' := Do(s, now, lane, deed).journal;
            if lane.row.status != InFlight then journal' == lane.journal
            else
              && n >= 1 && n !in lane.journal
              && var t := lane.tokens[n - 1];
              journal' == lane.journal[n := Entry(lane.row.requestId, t.claim.budgetAttempt, lane.row.url, t.claimedAt,
                                                  now, Unknown, Some("lease_expired"), None, None, deed.worker)]
  {
  }

  // --- what late reports can break ---------------------------------------------------------------

  /** A failure report moves the row exactly while the row is in flight under the name of the
      reporting worker. */
  lemma FailureMovesTheRow(s: Settings, now: Time, request: Request, lane: Lane, deed: Deed)
    requires Validated(s) && LaneInv(s, now, request, lane)
    requires deed.Record? && Can(s, now, lane, deed) && Sender.ErrorKind(deed.response).Some?
    ensures Do(s, now, lane, deed).row != lane.row
       <==> lane.row.status == InFlight && lane.row.lockedBy == Some(lane.tokens[deed.n - 1].worker)
  {
    assert TokenOk(s, now, request, lane, deed.n - 1);
    var t := lane.tokens[deed.n - 1];
    HorizonBounds(s, t.claim.budgetAttempt, deed.draw);
  }

  /** So a failure always counts for the attempt in flight, and a stale one leaves the schedule
      alone exactly when the attempt in flight, if there is one, belongs to another worker. */
  lemma StaleFailure(s: Settings, now: Time, request: Request, lane: Lane, deed: Deed)
    requires Validated(s) && LaneInv(s, now, request, lane)
    requires deed.Record? && Can(s, now, lane, deed) && Sender.ErrorKind(deed.response).Some?
    ensures var newest := lane.tokens[|lane.tokens| - 1];
            var row' := Do(s, now, lane, deed).row;
            && (deed.n == |lane.tokens| && lane.row.status == InFlight ==> row' != lane.row)
            && (deed.n < |lane.tokens| ==>
                  (row' == lane.row
                   <==> lane.row.status != InFlight || newest.worker != lane.tokens[deed.n - 1].worker))
  {
    FailureMovesTheRow(s, now, request, lane, deed);
  }
}
