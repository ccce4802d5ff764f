// The worker loop: how many claims it may hold, when it sleeps, what it leaves behind.

module Worker {
  import opened Types
  import opened Config
  import opened Lanes
  import opened Protocol
  import ClaimQuery
  import ClaimRefinement
  import History
  import Store
  import Waiting

  /** A delivery task, named after its delivery and attempt number. */
  type Task = (Id, nat)

  /** How one pass of the loop ends. */
  datatype Pace = WaitedForSlot | WentRound | Slept

  ghost predicate Owned(w: World, worker: WorkerId, t: Task) {
    t.0 in w.lanes && HasToken(w.lanes[t.0], t.1) && w.lanes[t.0].tokens[t.1 - 1].worker == worker
  }

  function TaskOf(claim: Claim): Task {
    (claim.deliveryId, claim.attemptNumber)
  }

  function TasksOf(claims: seq<Claim>): set<Task> {
    set i | 0 <= i < |claims| :: TaskOf(claims[i])
  }

  lemma {:induction false} TasksSize(claims: seq<Claim>)
    requires forall i, j :: 0 <= i < j < |claims| ==> claims[i].deliveryId != claims[j].deliveryId
    ensures |TasksOf(claims)| == |claims|
  {
    if claims == [] {
      assert TasksOf(claims) == {};
    } else {
      var n := |claims| - 1;
      TasksSize(claims[..n]);
      AddTask(claims[..n], claims[n]);
      assert claims == claims[..n] + [claims[n]];
    }
  }

  lemma AddTask(claims: seq<Claim>, claim: Claim)
    ensures TasksOf(claims + [claim]) == TasksOf(claims) + {TaskOf(claim)}
  {
    var all := claims + [claim];
    assert all[|claims|] == claim;
    forall t | t in TasksOf(claims) ensures t in TasksOf(all) {
      var i :| 0 <= i < |claims| && TaskOf(claims[i]) == t;
      assert all[i] == claims[i];
    }
  }

  /** Claims just handed out are owned by their worker and none of them existed before. */
  lemma HandedTasks(w: World, w': World, e: Event, rows: seq<Id>, claims: seq<Claim>)
    requires e.ClaimBatch? && ClaimRefinement.Distinct(rows) && Store.Handed(w, w', e, rows, claims)
    ensures |TasksOf(claims)| == |rows|
    ensures forall t :: t in TasksOf(claims) ==> Owned(w', e.worker, t) && !Owned(w, e.worker, t)
  {
    TasksSize(claims);
  }

  lemma OwnedStays(s: Settings, w: World, e: Event, worker: WorkerId, t: Task)
    requires Validated(s) && WorldInv(s, w) && Enabled(s, w, e) && Owned(w, worker, t)
    ensures Owned(Apply(s, w, e), worker, t)
  {
    assert LaneAt(s, w, t.0);
    History.EventExtends(s, w, e, t.0);
  }

  lemma BatchFits(s: Settings, w: World, e: Event, rows: seq<Id>)
    requires e.ClaimBatch? && e.limit > 0 && ClaimRefinement.Distinct(rows) && e.picks == ClaimRefinement.Elems(rows)
    requires ClaimQuery.LegalClaim(s, Table(w), w.now, e.limit, e.snapshot, e.window, e.locked, e.picks)
    ensures |rows| <= e.limit
  {
    ClaimRefinement.DistinctSize(rows);
  }

  lemma IdleMeansIdle(s: Settings, w: World, e: Event, rows: seq<Id>)
    requires Validated(s) && Enabled(s, w, e) && e.ClaimBatch? && e.picks == ClaimRefinement.Elems(rows)
    ensures Waiting.Progressive(s, w, e) ==> (rows == [] <==> Waiting.DueNow(w) == {})
  {
    if Waiting.Progressive(s, w, e) {
      Waiting.ProgressiveIsEmpty(s, w, e);
    }
    if |rows| > 0 {
      assert rows[0] in ClaimRefinement.Elems(rows);
    }
  }

  ghost predicate AllOwned(w: World, worker: WorkerId, tasks: set<Task>) {
    forall t {:trigger Owned(w, worker, t)} :: t in tasks ==> Owned(w, worker, t)
  }

  lemma DisjointUnion(a: set<Task>, b: set<Task>)
    requires a !! b
    ensures |a + b| == |a| + |b|
  {
  }

  /** Whatever the rest of the service does, a running task stays the holder of its claim. */
  lemma TasksStayOwned(s: Settings, w: World, e: Event, worker: WorkerId, tasks: set<Task>)
    requires Validated(s) && WorldInv(s, w) && Enabled(s, w, e) && AllOwned(w, worker, tasks)
    ensures AllOwned(Apply(s, w, e), worker, tasks)
  {
    forall t | t in tasks ensures Owned(Apply(s, w, e), worker, t) {
      assert Owned(w, worker, t);
      OwnedStays(s, w, e, worker, t);
    }
  }

  lemma UnpickedStays(s: Settings, w: World, e: Event, d: Id)
    requires e.ClaimBatch? && Enabled(s, w, e) && d in Apply(s, w, e).lanes
    ensures d in w.lanes && (d !in e.picks ==> Apply(s, w, e).lanes[d] == w.lanes[d])
  {
    assert d in w.lanes && Possible(s, w, e, d);
  }

  /** A task that only now came to be owned is one of the claims just handed out. */
  lemma NewTaskWasHanded(w: World, w': World, e: Event, rows: seq<Id>, claims: seq<Claim>, t: Task)
    requires e.ClaimBatch? && Store.Handed(w, w', e, rows, claims)
    requires Owned(w', e.worker, t) && !Owned(w, e.worker, t)
    requires t.0 in w.lanes && (t.0 !in rows ==> w'.lanes[t.0] == w.lanes[t.0])
    ensures t in TasksOf(claims)
  {
    var i :| 0 <= i < |rows| && rows[i] == t.0;
    assert t == TaskOf(claims[i]);
  }

  /** A batch joins the tasks already running: one task per claim, all distinct, all owned. */
  lemma BatchJoins(s: Settings, w: World, e: Event, rows: seq<Id>, claims: seq<Claim>, before: set<Task>)
    requires Validated(s) && WorldInv(s, w) && e.ClaimBatch? && Enabled(s, w, e) && AllOwned(w, e.worker, before)
    requires ClaimRefinement.Distinct(rows) && Store.Handed(w, Apply(s, w, e), e, rows, claims)
    requires e.picks == ClaimRefinement.Elems(rows)
    ensures AllOwned(Apply(s, w, e), e.worker, before + TasksOf(claims))
    ensures Joined(w, Apply(s, w, e), e.worker, before, before + TasksOf(claims), |rows|)
  {
    HandedTasks(w, Apply(s, w, e), e, rows, claims);
    TasksStayOwned(s, w, e, e.worker, before);
    forall t | t in before ensures t !in TasksOf(claims) {
      assert Owned(w, e.worker, t);
    }
    DisjointUnion(before, TasksOf(claims));
    assert (before + TasksOf(claims)) - before == TasksOf(claims);
    forall t: Task | Owned(Apply(s, w, e), e.worker, t) && !Owned(w, e.worker, t) ensures t in TasksOf(claims) {
      UnpickedStays(s, w, e, t.0);
      NewTaskWasHanded(w, Apply(s, w, e), e, rows, claims, t);
    }
  }

  /** `tasks` are exactly the claims the worker came to hold between the two states. */
  ghost predicate NewlyOwned(w: World, w': World, worker: WorkerId, tasks: set<Task>) {
    forall t: Task :: t in tasks <==> Owned(w', worker, t) && !Owned(w, worker, t)
  }

  /** `count` tasks joined those of `before`: exactly the claims newly held. */
  ghost predicate Joined(w: World, w': World, worker: WorkerId, before: set<Task>, after: set<Task>, count: nat) {
    before <= after && |after| == |before| + count && NewlyOwned(w, w', worker, after - before)
  }

  ghost predicate Happened(s: Settings, w: World, e: Event, w': World) {
    Enabled(s, w, e) && w' == Apply(s, w, e)
  }

  class Worker {
    const id: WorkerId
    const db: Store.Database
    var inFlight: set<Task>

    ghost predicate Valid()
      reads this, db
    {
      && db.Valid()
      && |inFlight| <= db.settings.workerConcurrency
      && AllOwned(db.world, id, inFlight)
    }

    constructor (id: WorkerId, db: Store.Database)
      requires db.Valid()
      ensures Valid() && this.id == id && this.db == db && inFlight == {}
    {
      this.id, this.db, inFlight := id, db, {};
    }

    function FreeSlots(): int
      reads this, db
    {
      db.settings.workerConcurrency - |inFlight|
    }

    function Limit(): int
      reads this, db
    {
      Min(FreeSlots(), db.settings.workerBatchSize)
    }

    /** Starts one task per claim. */
    method Spawn(claims: seq<Claim>)
      modifies this`inFlight
      ensures inFlight == old(inFlight) + TasksOf(claims)
    {
      for i := 0 to |claims|
        invariant inFlight == old(inFlight) + TasksOf(claims[..i])
      {
        AddTask(claims[..i], claims[i]);
        assert claims[..i + 1] == claims[..i] + [claims[i]];
        inFlight := inFlight + {TaskOf(claims[i])};
      }
      assert claims[..|claims|] == claims;
    }

    /** One pass: claim up to the free slots, start every claim, and idle only when there was
        nothing to take. `rows` is what the claim query hands out, in the order it returns. */
    method Tick(now: Time, rows: seq<Id>, ghost snapshot: ClaimQuery.Table, ghost window: set<Id>,
                ghost locked: set<Id>)
      returns (pace: Pace, ghost limit: int)
      requires Valid() && now == db.world.now && ClaimRefinement.Distinct(rows)
      requires FreeSlots() > 0 ==>
                 ClaimQuery.LegalClaim(db.settings, Table(db.world), now, Limit(), snapshot, window, locked,
                                       ClaimRefinement.Elems(rows))
      modifies this`inFlight, db`deliveries, db`journal, db`world
      ensures Valid()
      ensures pace == WaitedForSlot <==> |old(inFlight)| >= db.settings.workerConcurrency
      ensures pace == WaitedForSlot ==> inFlight == old(inFlight) && db.world == old(db.world)
      ensures pace != WaitedForSlot ==>
                && 1 <= limit <= db.settings.workerBatchSize && |rows| <= limit
                && limit <= db.settings.workerConcurrency - |old(inFlight)|
                && limit in {db.settings.workerBatchSize, db.settings.workerConcurrency - |old(inFlight)|}
      ensures pace != WaitedForSlot ==>
                var e := ClaimBatch(id, limit, snapshot, window, locked, ClaimRefinement.Elems(rows));
                Happened(db.settings, old(db.world), e, db.world)
      ensures pace != WaitedForSlot ==>
                Joined(old(db.world), db.world, id, old(inFlight), inFlight, |rows|) && (pace == Slept <==> rows == [])
      ensures pace != WaitedForSlot ==>
                var e := ClaimBatch(id, limit, snapshot, window, locked, ClaimRefinement.Elems(rows));
                Waiting.Progressive(db.settings, old(db.world), e) ==>
                  (pace == Slept <==> Waiting.DueNow(old(db.world)) == {})
    {
      var freeSlots := db.settings.workerConcurrency - |inFlight|;
      if freeSlots <= 0 {
        return WaitedForSlot, 0;
      }
      var batch := Min(freeSlots, db.settings.workerBatchSize);
      limit := batch;
      ghost var e := ClaimBatch(id, batch, snapshot, window, locked, ClaimRefinement.Elems(rows));
      ghost var w, s, before := db.world, db.settings, inFlight;
      LegalClaimsAreEnabled(s, w, e);
      IdleMeansIdle(s, w, e, rows);
      BatchFits(s, w, e, rows);
      var claims := db.ClaimBatch(id, batch, now, rows, snapshot, window, locked);
      Spawn(claims);
      BatchJoins(s, w, e, rows, claims, before);
      pace := if claims == [] then Slept else WentRound;
    }

    /** The done-callback of a task. */
    method TaskDone(t: Task)
      requires Valid()
      modifies this`inFlight
      ensures Valid() && inFlight == old(inFlight) - {t}
      ensures FreeSlots() == old(FreeSlots()) + if t in old(inFlight) then 1 else 0
    {
      ClaimQuery.SubsetSize(inFlight - {t}, inFlight);
      inFlight := inFlight - {t};
    }

    /** Shutdown: tasks that finish in the grace period are done, the rest is abandoned. The
        tables are untouched, so an abandoned row comes back when its lease runs out. */
    method Drain(finished: set<Task>)
      requires Valid()
      modifies this`inFlight, db`world
      ensures Valid() && inFlight == {}
      ensures var e := Abandon(old(inFlight) - finished);
              Enabled(db.settings, old(db.world), e) && db.world == Apply(db.settings, old(db.world), e)
      ensures db.deliveries == old(db.deliveries) && db.journal == old(db.journal)
    {
      ghost var e := Abandon(inFlight - finished);
      AbandonIsPossible(db.settings, db.world, e);
      db.Elsewhere(e);
      inFlight := {};
    }
  }

  lemma AbandonIsPossible(s: Settings, w: World, e: Event)
    requires e.Abandon?
    ensures Enabled(s, w, e)
  {
  }

  // --- a burst for one recipient ------------------------------------------------------------

  lemma OneOriginBatch(s: Settings, ds: ClaimQuery.Table, now: Time, limit: int, origin: string)
    requires InRange(s) && limit > 0
    requires forall d :: d in ClaimQuery.DueIds(ds, now) ==> ds[d].origin == origin
    ensures |ClaimQuery.OrderedPicks(s, ds, now, limit)|
         == Min(Min(limit, s.maxClaimsPerOrigin), |ClaimQuery.DueIds(ds, now)|)
  {
    var window, kept := ClaimQuery.OrderedWindow(s, ds, now, limit), ClaimQuery.Kept(s, ds, now, limit);
    ClaimQuery.WindowIsPositive(s, limit);
    ClaimQuery.FirstKSize(ds, ClaimQuery.DueIds(ds, now), limit * s.claimScanMultiplier);
    ClaimRefinement.KeptOfOrigin(s, ds, now, limit, origin);
    forall d | d in window ensures d in ClaimQuery.OfOrigin(ds, window, origin) {
    }
    assert ClaimQuery.OfOrigin(ds, window, origin) == window;
    forall d | d in kept ensures d in ClaimQuery.OfOrigin(ds, kept, origin) {
    }
    assert ClaimQuery.OfOrigin(ds, kept, origin) == kept;
    ClaimQuery.FirstKSize(ds, kept, limit);
  }

  /** Claims that give one recipient its full share: those that resolve ties by id, and
      uncontended ones whose window holds every due row. */
  ghost predicate Clean(s: Settings, w: World, e: Event) {
    || Waiting.Ordered(s, w, e)
    || (Waiting.Uncontended(s, w, e) && |Waiting.DueNow(w)| <= e.limit * s.claimScanMultiplier)
  }

  ghost predicate AllClean(s: Settings, w: World, es: Run)
    requires Legal(s, w, es)
    decreases |es|
  {
    es == [] || (Clean(s, w, es[0]) && AllClean(s, Apply(s, w, es[0]), es[1..]))
  }

  lemma CleanIsProgressive(s: Settings, w: World, e: Event)
    requires Validated(s) && Clean(s, w, e) && Waiting.DueNow(w) != {}
    ensures Waiting.Progressive(s, w, e)
  {
    ClaimRefinement.TiesLeaveTheHead(s, Table(w), w.now);
  }

  /** Everything due goes to one recipient host. */
  ghost predicate OneHost(w: World, origin: string) {
    forall d :: d in Waiting.DueNow(w) ==> Table(w)[d].origin == origin
  }

  /** One round takes min(limit, cap, due) rows and leaves a burst for the same recipient. */
  lemma RoundDrains(s: Settings, w: World, e: Event, origin: string)
    requires Validated(s) && WorldInv(s, w) && Enabled(s, w, e) && Clean(s, w, e) && OneHost(w, origin)
    ensures e.ClaimBatch? && e.limit > 0 && OneHost(Apply(s, w, e), origin)
    ensures |Waiting.DueNow(Apply(s, w, e))| == Max(0, |Waiting.DueNow(w)| - Min(e.limit, s.maxClaimsPerOrigin))
  {
    if Waiting.Ordered(s, w, e) {
      OneOriginBatch(s, Table(w), w.now, e.limit, origin);
    } else {
      ClaimRefinement.WholeWindowBatch(s, Table(w), w.now, e.limit, e.window, e.picks, origin);
    }
    PicksAreDue(s, w, e);
    Waiting.ClaimConsumes(s, w, e);
    PartSize(Waiting.DueNow(w), e.picks);
  }

  lemma PicksAreDue(s: Settings, w: World, e: Event)
    requires Enabled(s, w, e) && e.ClaimBatch?
    ensures e.picks <= Waiting.DueNow(w)
  {
    if e.limit > 0 {
      assert e.picks <= ClaimQuery.Candidates(s, e.snapshot, e.window, Table(w), w.now, e.locked);
    }
  }

  lemma PartSize(all: set<Id>, part: set<Id>)
    requires part <= all
    ensures |all - part| == |all| - |part|
  {
    assert all == (all - part) + part;
  }

  /** The most that the rounds of a run can take for one recipient. */
  ghost function Shares(s: Settings, es: Run): int {
    if es == [] then 0
    else (if es[0].ClaimBatch? then Min(es[0].limit, s.maxClaimsPerOrigin) else 0) + Shares(s, es[1..])
  }

  ghost predicate AllProgressive(s: Settings, w: World, es: Run)
    requires Legal(s, w, es)
    decreases |es|
  {
    es == [] || ((es[0].ClaimBatch? ==> Waiting.Progressive(s, w, es[0]))
                 && AllProgressive(s, Apply(s, w, es[0]), es[1..]))
  }

  /** No claim of the run comes back empty over due rows, so no pass of a worker idles. */
  ghost predicate NoIdleRound(s: Settings, w: World, es: Run)
    requires Legal(s, w, es)
    decreases |es|
  {
    es == [] || ((es[0].ClaimBatch? ==> (es[0].picks == {} <==> Waiting.DueNow(w) == {}))
                 && NoIdleRound(s, Apply(s, w, es[0]), es[1..]))
  }

  /** Whatever else happens between its claims - other recipients, new leads, reports - a worker
      whose claims are not blocked by capped ties idles in no round while anything is due. */
  lemma {:induction false} RoundsNeverIdle(s: Settings, w: World, es: Run)
    requires Validated(s) && Legal(s, w, es) && AllProgressive(s, w, es)
    ensures NoIdleRound(s, w, es)
    decreases |es|
  {
    if es != [] {
      if es[0].ClaimBatch? {
        Waiting.ProgressiveIsEmpty(s, w, es[0]);
      }
      RoundsNeverIdle(s, Apply(s, w, es[0]), es[1..]);
    }
  }

  lemma CleanIsBusy(s: Settings, w: World, e: Event)
    requires Validated(s) && Enabled(s, w, e) && Clean(s, w, e)
    ensures e.picks == {} <==> Waiting.DueNow(w) == {}
  {
    PicksAreDue(s, w, e);
    if Waiting.DueNow(w) != {} {
      CleanIsProgressive(s, w, e);
      Waiting.ProgressiveIsEmpty(s, w, e);
    }
  }

  lemma {:induction false} CleanNeverIdles(s: Settings, w: World, es: Run)
    requires Validated(s) && Legal(s, w, es) && AllClean(s, w, es)
    ensures NoIdleRound(s, w, es)
    decreases |es|
  {
    if es != [] {
      CleanIsBusy(s, w, es[0]);
      CleanNeverIdles(s, Apply(s, w, es[0]), es[1..]);
    }
  }

  lemma {:induction false} SharesDrain(s: Settings, w: World, es: Run, origin: string)
    requires Validated(s) && WorldInv(s, w) && Legal(s, w, es) && AllClean(s, w, es) && OneHost(w, origin)
    ensures |Waiting.DueNow(Exec(s, w, es))| == Max(0, |Waiting.DueNow(w)| - Shares(s, es)) && Shares(s, es) >= 0
    decreases |es|
  {
    if es != [] {
      FirstRound(s, w, es, origin);
      SharesDrain(s, Apply(s, w, es[0]), es[1..], origin);
    }
  }

  lemma FirstRound(s: Settings, w: World, es: Run, origin: string)
    requires Validated(s) && WorldInv(s, w) && Legal(s, w, es) && AllClean(s, w, es) && OneHost(w, origin) && es != []
    ensures es[0].ClaimBatch? && es[0].limit > 0
    ensures var w' := Apply(s, w, es[0]);
            && WorldInv(s, w') && Legal(s, w', es[1..]) && AllClean(s, w', es[1..]) && OneHost(w', origin)
            && |Waiting.DueNow(w')| == Max(0, |Waiting.DueNow(w)| - Min(es[0].limit, s.maxClaimsPerOrigin))
            && Exec(s, w, es) == Exec(s, w', es[1..])
  {
    EventKeeps(s, w, es[0]);
    RoundDrains(s, w, es[0], origin);
  }

  /** A burst for one recipient drains by min(limit, cap) per round, each round with the limit its
      free slots allow, and no round comes back empty before the burst is gone: the fairness cap is
      not a rate limit. */
  lemma BurstDrains(s: Settings, w: World, es: Run, origin: string)
    requires Validated(s) && WorldInv(s, w) && Legal(s, w, es) && AllClean(s, w, es) && OneHost(w, origin)
    ensures |Waiting.DueNow(Exec(s, w, es))| == Max(0, |Waiting.DueNow(w)| - Shares(s, es)) && Shares(s, es) >= 0
    ensures NoIdleRound(s, w, es)
  {
    SharesDrain(s, w, es, origin);
    CleanNeverIdles(s, w, es);
  }
}
