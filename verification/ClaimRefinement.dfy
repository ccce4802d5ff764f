// The rank / window / limit query against two simpler descriptions of it: a single pass
// over the due rows with a counter per origin, and a formula for the size of the batch.
// Then the price of the missing tie-break: exactly when a claim can come back empty
// although rows are due.

module ClaimRefinement {
  import opened Types
  import opened Config
  import opened ClaimQuery

  // --- one pass ---------------------------------------------------------------------

  function Elems(xs: seq<Id>): set<Id> {
    set x | x in xs
  }

  predicate AllIn(ds: Table, xs: seq<Id>) {
    forall i :: 0 <= i < |xs| ==> xs[i] in ds
  }

  /** How many of the rows picked so far belong to an origin. */
  function Count(ds: Table, picked: seq<Id>, origin: string): nat
    requires AllIn(ds, picked)
  {
    if picked == [] then 0
    else Count(ds, picked[..|picked| - 1], origin) + if ds[picked[|picked| - 1]].origin == origin then 1 else 0
  }

  /** Walk the rows in order; take a row while the batch and its origin's share have room. */
  function Pass(ds: Table, rows: seq<Id>, limit: nat, cap: nat): (picked: seq<Id>)
    requires AllIn(ds, rows)
    ensures AllIn(ds, picked)
    ensures forall x :: x in picked ==> x in rows
  {
    if rows == [] then []
    else
      var picked := Pass(ds, rows[..|rows| - 1], limit, cap);
      var x := rows[|rows| - 1];
      if |picked| < limit && Count(ds, picked, ds[x].origin) < cap then picked + [x] else picked
  }

  ghost predicate Sorted(ds: Table, order: seq<Id>)
    requires AllIn(ds, order)
  {
    forall i, j :: 0 <= i < j < |order| ==> Before(ds, order[i], order[j])
  }

  /** `order` lists the due rows by (claimable_at, id). */
  ghost predicate Enumerates(ds: Table, now: Time, order: seq<Id>) {
    && (forall i :: 0 <= i < |order| ==> order[i] in DueIds(ds, now))
    && (forall x :: x in DueIds(ds, now) ==> x in order)
    && Sorted(ds, order)
  }

  ghost function Below(ds: Table, ids: set<Id>, x: Id): set<Id>
    requires ids <= ds.Keys && x in ds
  {
    set y | y in ids && Before(ds, y, x)
  }

  /** Cutting k rows and looking below x is looking below x and cutting k rows. */
  lemma CutBelow(ds: Table, ids: set<Id>, k: nat, x: Id)
    requires ids <= ds.Keys && x in ds
    ensures Below(ds, FirstK(ds, ids, k), x) == FirstK(ds, Below(ds, ids, x), k)
    ensures |Below(ds, FirstK(ds, ids, k), x)| == Min(k, Rank(ds, ids, x))
  {
    var below := Below(ds, ids, x);
    forall y | y in below ensures Rank(ds, ids, y) == Rank(ds, below, y) {
      assert (set z | z in ids && Before(ds, z, y)) == (set z | z in below && Before(ds, z, y));
    }
    FirstKSize(ds, below, k);
  }

  lemma PrefixIsBelow(ds: Table, now: Time, order: seq<Id>, i: nat)
    requires Enumerates(ds, now, order) && i < |order|
    ensures forall y :: y in order[..i] <==> y in Below(ds, DueIds(ds, now), order[i])
    ensures Rank(ds, DueIds(ds, now), order[i]) == i
  {
    var due := DueIds(ds, now);
    forall y: Id ensures y in order[..i] <==> y in Below(ds, due, order[i]) {
      if y in Below(ds, due, order[i]) {
        var j :| 0 <= j < |order| && order[j] == y;
        assert j < i;
      }
    }
    assert Below(ds, due, order[i]) == Elems(order[..i]);
    DistinctSize(order[..i]);
  }

  ghost predicate Distinct(ids: seq<Id>) {
    forall i, j :: 0 <= i < j < |ids| ==> ids[i] != ids[j]
  }

  lemma {:induction false} DistinctSize(ids: seq<Id>)
    requires Distinct(ids)
    ensures |Elems(ids)| == |ids|
  {
    if ids == [] {
      assert Elems(ids) == {};
    } else {
      var n := |ids| - 1;
      DistinctSize(ids[..n]);
      assert ids == ids[..n] + [ids[n]];
      assert Elems(ids) == Elems(ids[..n]) + {ids[n]};
    }
  }

  /** What the pass has picked so far, as the query would describe it. */
  ghost predicate Tracks(s: Settings, ds: Table, now: Time, limit: int, prefix: seq<Id>, picked: seq<Id>)
    requires AllIn(ds, prefix)
  {
    && (forall x :: x in picked <==> x in prefix && x in OrderedPicks(s, ds, now, limit))
    && AllIn(ds, picked)
    && |picked| == |Elems(picked)|
    && (forall o :: Count(ds, picked, o) == |OfOrigin(ds, Elems(picked), o)|)
  }

  lemma BatchIsBelow(s: Settings, ds: Table, now: Time, limit: int, order: seq<Id>, i: nat, picked: seq<Id>)
    requires limit > 0 && Enumerates(ds, now, order) && i < |order|
    requires Tracks(s, ds, now, limit, order[..i], picked)
    ensures Elems(picked) == Below(ds, OrderedPicks(s, ds, now, limit), order[i])
    ensures |picked| == Min(limit, Rank(ds, Kept(s, ds, now, limit), order[i]))
  {
    PrefixIsBelow(ds, now, order, i);
    var picks := OrderedPicks(s, ds, now, limit);
    forall y: Id ensures y in Elems(picked) <==> y in Below(ds, picks, order[i]) {
      assert y in picked <==> y in order[..i] && y in picks;
    }
    CutBelow(ds, Kept(s, ds, now, limit), limit, order[i]);
  }

  lemma ShareSoFar(s: Settings, ds: Table, now: Time, limit: int, x: Id)
    requires InRange(s) && limit > 0 && x in OrderedWindow(s, ds, now, limit)
    requires Rank(ds, Kept(s, ds, now, limit), x) < limit
    ensures var mine := OfOrigin(ds, DueIds(ds, now), ds[x].origin);
            |OfOrigin(ds, Below(ds, OrderedPicks(s, ds, now, limit), x), ds[x].origin)|
            == Min(s.maxClaimsPerOrigin, Rank(ds, mine, x))
  {
    KeptBelow(s, ds, now, limit, x);
    BelowSmall(ds, Kept(s, ds, now, limit), limit, x);
    CutBelow(ds, OfOrigin(ds, DueIds(ds, now), ds[x].origin), s.maxClaimsPerOrigin, x);
  }

  /** Whether the query picks the next row, decided from the batch so far alone. */
  lemma NextRow(s: Settings, ds: Table, now: Time, limit: int, order: seq<Id>, i: nat, picked: seq<Id>)
    requires InRange(s) && limit > 0 && Enumerates(ds, now, order)
    requires i < |order| && i < limit * s.claimScanMultiplier
    requires Tracks(s, ds, now, limit, order[..i], picked)
    ensures order[i] in OrderedPicks(s, ds, now, limit)
       <==> |picked| < limit && Count(ds, picked, ds[order[i]].origin) < s.maxClaimsPerOrigin
  {
    PrefixIsBelow(ds, now, order, i);
    BatchIsBelow(s, ds, now, limit, order, i, picked);
    if Rank(ds, Kept(s, ds, now, limit), order[i]) < limit {
      ShareSoFar(s, ds, now, limit, order[i]);
    }
  }

  /** With fewer than k rows below x, a cut of k keeps all of them. */
  lemma BelowSmall(ds: Table, ids: set<Id>, k: nat, x: Id)
    requires ids <= ds.Keys && x in ds && Rank(ds, ids, x) < k
    ensures Below(ds, FirstK(ds, ids, k), x) == Below(ds, ids, x)
  {
    forall y | y in Below(ds, ids, x) ensures Rank(ds, ids, y) < k {
      SubsetSize(set z | z in ids && Before(ds, z, y), set z | z in ids && Before(ds, z, x));
    }
  }

  /** Below a row of the window, being kept is being among the first of one's origin. */
  lemma KeptBelow(s: Settings, ds: Table, now: Time, limit: int, x: Id)
    requires InRange(s) && limit > 0 && x in OrderedWindow(s, ds, now, limit)
    ensures var mine := OfOrigin(ds, DueIds(ds, now), ds[x].origin);
            OfOrigin(ds, Below(ds, Kept(s, ds, now, limit), x), ds[x].origin)
            == Below(ds, FirstK(ds, mine, s.maxClaimsPerOrigin), x)
  {
    var due := DueIds(ds, now);
    var mine := OfOrigin(ds, due, ds[x].origin);
    forall y | y in Below(ds, FirstK(ds, mine, s.maxClaimsPerOrigin), x)
      ensures y in Kept(s, ds, now, limit)
    {
      FirstKDownward(ds, due, limit * s.claimScanMultiplier, x, y);
    }
  }

  lemma {:induction false} PassTracks(s: Settings, ds: Table, now: Time, limit: int, order: seq<Id>, i: nat)
    requires InRange(s) && limit > 0 && Enumerates(ds, now, order)
    requires i <= |order| && i <= limit * s.claimScanMultiplier
    ensures Tracks(s, ds, now, limit, order[..i], Pass(ds, order[..i], limit, s.maxClaimsPerOrigin))
  {
    if i > 0 {
      PassTracks(s, ds, now, limit, order, i - 1);
      var before := order[..i - 1];
      assert order[..i][..i - 1] == before;
      var chosen := Pass(ds, before, limit, s.maxClaimsPerOrigin);
      NextRow(s, ds, now, limit, order, i - 1, chosen);
      Extend(s, ds, now, limit, order, i - 1, chosen, Pass(ds, order[..i], limit, s.maxClaimsPerOrigin));
    }
  }

  lemma Append(ds: Table, picked: seq<Id>, x: Id)
    requires AllIn(ds, picked) && x in ds && x !in picked
    ensures AllIn(ds, picked + [x]) && Elems(picked + [x]) == Elems(picked) + {x}
    ensures forall o :: Count(ds, picked + [x], o) == Count(ds, picked, o) + if ds[x].origin == o then 1 else 0
  {
    assert (picked + [x])[..|picked|] == picked;
  }

  lemma CountIsSize(ds: Table, picked: seq<Id>, x: Id)
    requires AllIn(ds, picked) && x in ds && x !in picked
    requires forall o :: Count(ds, picked, o) == |OfOrigin(ds, Elems(picked), o)|
    ensures AllIn(ds, picked + [x])
    ensures forall o :: Count(ds, picked + [x], o) == |OfOrigin(ds, Elems(picked + [x]), o)|
  {
    Append(ds, picked, x);
    forall o ensures Count(ds, picked + [x], o) == |OfOrigin(ds, Elems(picked + [x]), o)| {
      var mine := OfOrigin(ds, Elems(picked), o);
      assert OfOrigin(ds, Elems(picked + [x]), o) == if ds[x].origin == o then mine + {x} else mine;
    }
  }

  lemma Extend(s: Settings, ds: Table, now: Time, limit: int, order: seq<Id>, i: nat, picked: seq<Id>, picked': seq<Id>)
    requires Enumerates(ds, now, order) && i < |order|
    requires Tracks(s, ds, now, limit, order[..i], picked)
    requires picked' == if order[i] in OrderedPicks(s, ds, now, limit) then picked + [order[i]] else picked
    ensures Tracks(s, ds, now, limit, order[..i + 1], picked')
  {
    var x := order[i];
    assert order[..i + 1] == order[..i] + [x];
    PrefixIsBelow(ds, now, order, i);
    assert x !in order[..i];
    if x in OrderedPicks(s, ds, now, limit) {
      Append(ds, picked, x);
      CountIsSize(ds, picked, x);
    }
  }

  /** A single pass over the window, with one counter per origin, is the whole query. */
  lemma OnePassIsTheQuery(s: Settings, ds: Table, now: Time, limit: int, order: seq<Id>)
    requires InRange(s) && limit > 0 && Enumerates(ds, now, order)
    ensures var picked := Pass(ds, order[..Min(limit * s.claimScanMultiplier, |order|)], limit, s.maxClaimsPerOrigin);
            && (forall x :: x in picked <==> x in OrderedPicks(s, ds, now, limit))
            && |picked| == |OrderedPicks(s, ds, now, limit)|
  {
    WindowIsPositive(s, limit);
    var size := limit * s.claimScanMultiplier;
    var w := Min(size, |order|);
    PassTracks(s, ds, now, limit, order, w);
    var picked := Pass(ds, order[..w], limit, s.maxClaimsPerOrigin);
    forall x | x in OrderedPicks(s, ds, now, limit) ensures x in order[..w] {
      var j :| 0 <= j < |order| && order[j] == x;
      PrefixIsBelow(ds, now, order, j);
      assert order[..w][j] == x;
    }
    assert Elems(picked) == OrderedPicks(s, ds, now, limit);
  }

  /** Such an enumeration exists for every table. */
  lemma {:induction false} CanEnumerate(ds: Table, ids: set<Id>) returns (order: seq<Id>)
    requires ids <= ds.Keys
    ensures AllIn(ds, order) && Sorted(ds, order) && Elems(order) == ids
    decreases |ids|
  {
    order := [];
    if ids != {} {
      var m := LastExists(ds, ids);
      var rest := CanEnumerate(ds, ids - {m});
      order := rest + [m];
      assert forall i :: 0 <= i < |rest| ==> rest[i] in Elems(rest);
      assert Elems(order) == Elems(rest) + {m};
    }
  }

  /** So one pass in the order of `row_number` does the work of the query on every table. */
  lemma QueryIsOnePass(s: Settings, ds: Table, now: Time, limit: int) returns (order: seq<Id>, picked: seq<Id>)
    requires InRange(s) && limit > 0
    ensures Enumerates(ds, now, order) && limit * s.claimScanMultiplier >= 0
    ensures picked == Pass(ds, order[..Min(limit * s.claimScanMultiplier, |order|)], limit, s.maxClaimsPerOrigin)
    ensures Elems(picked) == OrderedPicks(s, ds, now, limit) && |picked| == |OrderedPicks(s, ds, now, limit)|
  {
    WindowIsPositive(s, limit);
    order := CanEnumerate(ds, DueIds(ds, now));
    assert forall i :: 0 <= i < |order| ==> order[i] in Elems(order);
    forall x | x in DueIds(ds, now) ensures x in order {
      assert x in Elems(order);
    }
    picked := Pass(ds, order[..Min(limit * s.claimScanMultiplier, |order|)], limit, s.maxClaimsPerOrigin);
    OnePassIsTheQuery(s, ds, now, limit, order);
    assert Elems(picked) == OrderedPicks(s, ds, now, limit);
  }

  // --- size of the batch ---------------------------------------------------------------

  /** The sum over the origins of `ids` of min(cap, rows of that origin). */
  ghost function Quota(ds: Table, ids: set<Id>, cap: nat): nat
    requires ids <= ds.Keys
    decreases |ids|
  {
    if ids == {} then 0
    else
      var mine := OfOrigin(ds, ids, ds[AnyOf(ids)].origin);
      assert |ids - mine| < |ids| by { assert AnyOf(ids) in mine; SubsetSize(ids - mine, ids - {AnyOf(ids)}); }
      Min(cap, |mine|) + Quota(ds, ids - mine, cap)
  }

  /** Within one origin the cap keeps the first rows of the window. */
  lemma KeptOfOrigin(s: Settings, ds: Table, now: Time, limit: int, origin: string)
    requires InRange(s) && limit > 0
    ensures var window := OrderedWindow(s, ds, now, limit);
            |OfOrigin(ds, Kept(s, ds, now, limit), origin)| == Min(s.maxClaimsPerOrigin, |OfOrigin(ds, window, origin)|)
  {
    var due, window := DueIds(ds, now), OrderedWindow(s, ds, now, limit);
    var all, mine := OfOrigin(ds, due, origin), OfOrigin(ds, window, origin);
    WindowIsPositive(s, limit);
    forall x | x in mine ensures Rank(ds, all, x) == Rank(ds, mine, x) {
      forall y | y in all && Before(ds, y, x) ensures y in mine {
        FirstKDownward(ds, due, limit * s.claimScanMultiplier, x, y);
      }
      assert (set y | y in all && Before(ds, y, x)) == (set y | y in mine && Before(ds, y, x));
    }
    assert OfOrigin(ds, Kept(s, ds, now, limit), origin) == FirstK(ds, mine, s.maxClaimsPerOrigin);
    FirstKSize(ds, mine, s.maxClaimsPerOrigin);
  }

  lemma Split<T>(ids: set<T>, mine: set<T>, kept: set<T>)
    requires mine <= ids
    ensures |ids * kept| == |mine * kept| + |(ids - mine) * kept|
  {
    assert ids * kept == (mine * kept) + ((ids - mine) * kept);
  }

  /** A set of window rows that leaves no origin half in. */
  ghost predicate WholeOrigins(ds: Table, window: set<Id>, ids: set<Id>)
    requires ids <= window <= ds.Keys
  {
    forall x, y :: x in ids && y in window && ds[x].origin == ds[y].origin ==> y in ids
  }

  lemma OneOrigin(s: Settings, ds: Table, now: Time, limit: int, ids: set<Id>, origin: string)
    requires InRange(s) && limit > 0 && ids <= OrderedWindow(s, ds, now, limit)
    requires WholeOrigins(ds, OrderedWindow(s, ds, now, limit), ids)
    requires OfOrigin(ds, ids, origin) != {}
    ensures |OfOrigin(ds, ids, origin) * Kept(s, ds, now, limit)|
        == Min(s.maxClaimsPerOrigin, |OfOrigin(ds, ids, origin)|)
    ensures WholeOrigins(ds, OrderedWindow(s, ds, now, limit), ids - OfOrigin(ds, ids, origin))
  {
    var mine := OfOrigin(ds, ids, origin);
    var x := AnyOf(mine);
    assert mine == OfOrigin(ds, OrderedWindow(s, ds, now, limit), origin);
    assert mine * Kept(s, ds, now, limit) == OfOrigin(ds, Kept(s, ds, now, limit), origin);
    KeptOfOrigin(s, ds, now, limit, origin);
  }

  lemma {:induction false} KeptIsQuota(s: Settings, ds: Table, now: Time, limit: int, ids: set<Id>)
    requires InRange(s) && limit > 0 && ids <= OrderedWindow(s, ds, now, limit)
    requires WholeOrigins(ds, OrderedWindow(s, ds, now, limit), ids)
    ensures |ids * Kept(s, ds, now, limit)| == Quota(ds, ids, s.maxClaimsPerOrigin)
    decreases |ids|
  {
    if ids != {} {
      var x := AnyOf(ids);
      var mine := OfOrigin(ds, ids, ds[x].origin);
      assert x in mine;
      SubsetSize(ids - mine, ids - {x});
      OneOrigin(s, ds, now, limit, ids, ds[x].origin);
      KeptIsQuota(s, ds, now, limit, ids - mine);
      Split(ids, mine, Kept(s, ds, now, limit));
    } else {
      assert ids * Kept(s, ds, now, limit) == {};
    }
  }

  /** The batch is as large as its limit and the shares of the origins in the window allow. */
  lemma BatchSize(s: Settings, ds: Table, now: Time, limit: int)
    requires InRange(s) && limit > 0
    ensures |OrderedPicks(s, ds, now, limit)|
         == Min(limit, Quota(ds, OrderedWindow(s, ds, now, limit), s.maxClaimsPerOrigin))
  {
    var window, kept := OrderedWindow(s, ds, now, limit), Kept(s, ds, now, limit);
    KeptIsQuota(s, ds, now, limit, window);
    assert window * kept == kept;
    FirstKSize(ds, kept, limit);
  }

  // --- ties -------------------------------------------------------------------------------

  /** No row of the window survives the per-origin cap, so the batch will be empty. */
  ghost predicate Starves(s: Settings, ds: Table, now: Time, limit: int, window: set<Id>)
    requires window <= ds.Keys
  {
    Candidates(s, ds, window, ds, now, {}) == {}
  }

  /** The oldest due rows, all equally old, that stand behind `max_claims_per_origin` others
      of their origin. */
  ghost function CappedTies(s: Settings, ds: Table, now: Time): set<Id> {
    set x | x in DueIds(ds, now)
            && (forall y :: y in DueIds(ds, now) ==> ds[x].claimableAt <= ds[y].claimableAt)
            && RowNumber(ds, now, x) > s.maxClaimsPerOrigin
  }

  lemma {:induction false} SubsetOfSize<T>(all: set<T>, k: nat) returns (few: set<T>)
    requires k <= |all|
    ensures few <= all && |few| == k
    decreases |all|
  {
    few := all;
    if k < |all| {
      var x :| x in all;
      few := SubsetOfSize(all - {x}, k);
    }
  }

  /** The scan orders by claimable_at alone, so an uncontended claim can find due rows and
      hand out none of them: exactly when the oldest instant has at least a whole window of
      rows standing behind their origin's cap. */
  lemma StarvationIsPossible(s: Settings, ds: Table, now: Time, limit: int)
    requires InRange(s) && limit > 0 && DueIds(ds, now) != {}
    ensures limit * s.claimScanMultiplier >= 0
    ensures (exists window :: LegalWindow(ds, now, limit * s.claimScanMultiplier, window)
                              && Starves(s, ds, now, limit, window))
       <==> |CappedTies(s, ds, now)| >= limit * s.claimScanMultiplier
  {
    WindowIsPositive(s, limit);
    var due, ties, size := DueIds(ds, now), CappedTies(s, ds, now), limit * s.claimScanMultiplier;
    if |ties| >= size {
      var window := SubsetOfSize(ties, size);
      SubsetSize(ties, due);
      assert LegalWindow(ds, now, size, window) && Starves(s, ds, now, limit, window);
    }
    forall window | LegalWindow(ds, now, size, window) && Starves(s, ds, now, limit, window)
      ensures |ties| >= size
    {
      StarvedWindow(s, ds, now, limit, window);
    }
  }

  lemma StarvedWindow(s: Settings, ds: Table, now: Time, limit: int, window: set<Id>)
    requires InRange(s) && limit > 0 && DueIds(ds, now) != {}
    requires limit * s.claimScanMultiplier >= limit
    requires LegalWindow(ds, now, limit * s.claimScanMultiplier, window)
    requires Starves(s, ds, now, limit, window)
    ensures |CappedTies(s, ds, now)| >= limit * s.claimScanMultiplier
  {
    var due := DueIds(ds, now);
    var head := FirstExists(ds, due);
    NothingBefore(ds, OfOrigin(ds, due, ds[head].origin), head);
    assert RowNumber(ds, now, head) == 1;
    assert head !in Candidates(s, ds, window, ds, now, {});
    forall x | x in window ensures x in CappedTies(s, ds, now) {
      assert x !in Candidates(s, ds, window, ds, now, {});
    }
    SubsetSize(window, CappedTies(s, ds, now));
    if |window| == |due| {
      SameSize(window, due);
    }
  }

  /** A burst of n equally old rows for one origin - what a bulk requeue leaves behind -
      can starve a claim exactly from limit * claim_scan_multiplier + max_claims_per_origin
      rows on. */
  lemma BurstStarves(s: Settings, ds: Table, now: Time, limit: int, origin: string, at: Time)
    requires InRange(s) && limit > 0 && DueIds(ds, now) != {}
    requires forall d :: d in DueIds(ds, now) ==> ds[d].origin == origin && ds[d].claimableAt == at
    ensures limit * s.claimScanMultiplier >= 0
    ensures (exists window :: LegalWindow(ds, now, limit * s.claimScanMultiplier, window)
                              && Starves(s, ds, now, limit, window))
       <==> |DueIds(ds, now)| >= limit * s.claimScanMultiplier + s.maxClaimsPerOrigin
  {
    StarvationIsPossible(s, ds, now, limit);
    WindowIsPositive(s, limit);
    var due := DueIds(ds, now);
    forall d | d in due ensures d in OfOrigin(ds, due, origin) {
    }
    assert OfOrigin(ds, due, origin) == due;
    FirstKSize(ds, due, s.maxClaimsPerOrigin);
    assert CappedTies(s, ds, now) == due - FirstK(ds, due, s.maxClaimsPerOrigin);
    assert |due - FirstK(ds, due, s.maxClaimsPerOrigin)| == |due| - |FirstK(ds, due, s.maxClaimsPerOrigin)|;
  }

  // --- progress whatever the ties -----------------------------------------------------------

  ghost predicate Oldest(ds: Table, now: Time, x: Id) {
    x in DueIds(ds, now) && forall y :: y in DueIds(ds, now) ==> ds[x].claimableAt <= ds[y].claimableAt
  }

  /** Unless capped ties fill the window, a row of the oldest instant survives the cap. */
  lemma OldestIsCandidate(s: Settings, ds: Table, now: Time, limit: int, window: set<Id>) returns (x: Id)
    requires InRange(s) && limit > 0 && DueIds(ds, now) != {} && limit * s.claimScanMultiplier >= limit
    requires |CappedTies(s, ds, now)| < limit * s.claimScanMultiplier
    requires LegalWindow(ds, now, limit * s.claimScanMultiplier, window)
    ensures x in Candidates(s, ds, window, ds, now, {}) && Oldest(ds, now, x)
  {
    var due := DueIds(ds, now);
    var head := FirstExists(ds, due);
    assert Oldest(ds, now, head);
    NothingBefore(ds, OfOrigin(ds, due, ds[head].origin), head);
    x := head;
    if head !in window {
      assert forall y :: y in window ==> Oldest(ds, now, y);
      if |window| == |due| {
        SameSize(window, due);
      }
      if window <= CappedTies(s, ds, now) {
        SubsetSize(window, CappedTies(s, ds, now));
      }
      x :| x in window && x !in CappedTies(s, ds, now);
    }
  }

  /** So an uncontended claim takes a row of the oldest instant, whatever rows the two cuts keep
      among equally old ones. */
  lemma OldestIsPicked(s: Settings, ds: Table, now: Time, limit: int, window: set<Id>, picks: set<Id>) returns (x: Id)
    requires InRange(s) && limit > 0 && DueIds(ds, now) != {}
    requires |CappedTies(s, ds, now)| < limit * s.claimScanMultiplier
    requires LegalClaim(s, ds, now, limit, ds, window, {}, picks)
    ensures x in picks && Oldest(ds, now, x)
  {
    WindowIsPositive(s, limit);
    var cand := Candidates(s, ds, window, ds, now, {});
    var c := OldestIsCandidate(s, ds, now, limit, window);
    x := c;
    if c !in picks {
      SubsetSize({c}, cand);
      x := AnyOf(picks);
      assert x in DueIds(ds, now) && ds[x].claimableAt <= ds[c].claimableAt;
    }
  }

  /** A window that holds every due row leaves nothing to the ties: one origin gets its share. */
  lemma WholeWindowBatch(s: Settings, ds: Table, now: Time, limit: int, window: set<Id>, picks: set<Id>, origin: string)
    requires InRange(s) && limit > 0 && |DueIds(ds, now)| <= limit * s.claimScanMultiplier
    requires forall d :: d in DueIds(ds, now) ==> ds[d].origin == origin
    requires LegalClaim(s, ds, now, limit, ds, window, {}, picks)
    ensures |picks| == Min(Min(limit, s.maxClaimsPerOrigin), |DueIds(ds, now)|)
  {
    var due := DueIds(ds, now);
    SameSize(window, due);
    forall d | d in due ensures d in OfOrigin(ds, due, origin) {
    }
    assert OfOrigin(ds, due, origin) == due;
    FirstKSize(ds, due, s.maxClaimsPerOrigin);
    assert Candidates(s, ds, window, ds, now, {}) == FirstK(ds, due, s.maxClaimsPerOrigin);
  }

  lemma TiesLeaveTheHead(s: Settings, ds: Table, now: Time)
    requires InRange(s) && DueIds(ds, now) != {}
    ensures |CappedTies(s, ds, now)| < |DueIds(ds, now)|
  {
    var due := DueIds(ds, now);
    var head := FirstExists(ds, due);
    NothingBefore(ds, OfOrigin(ds, due, ds[head].origin), head);
    SubsetSize(CappedTies(s, ds, now), due - {head});
  }
}
