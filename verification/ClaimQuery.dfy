// The claim query: rank the due rows per origin, cut a window, re-check, cut the batch.
// `row_number` orders by (claimable_at, id); the two LIMITs order by claimable_at alone,
// so which of several equally old rows they keep is up to the database.

module ClaimQuery {
  import opened Types
  import opened Config
  import opened Rows

  type Table = map<Id, Delivery>

  ghost function DueIds(ds: Table, now: Time): set<Id> {
    set d | d in ds && Due(ds[d], now)
  }

  /** The order of `row_number`. */
  ghost predicate Before(ds: Table, x: Id, y: Id)
    requires x in ds && y in ds
  {
    ds[x].claimableAt < ds[y].claimableAt || (ds[x].claimableAt == ds[y].claimableAt && x < y)
  }

  ghost function Rank(ds: Table, ids: set<Id>, x: Id): nat
    requires ids <= ds.Keys && x in ds
  {
    |set y | y in ids && Before(ds, y, x)|
  }

  /** The k smallest of a set of rows. */
  ghost function FirstK(ds: Table, ids: set<Id>, k: int): set<Id>
    requires ids <= ds.Keys
  {
    set x | x in ids && Rank(ds, ids, x) < k
  }

  ghost function OfOrigin(ds: Table, ids: set<Id>, origin: string): set<Id>
    requires ids <= ds.Keys
  {
    set x | x in ids && ds[x].origin == origin
  }

  /** Position of a row among the due rows of its origin, counted from one. */
  ghost function RowNumber(ds: Table, now: Time, x: Id): nat
    requires x in ds
  {
    1 + Rank(ds, OfOrigin(ds, DueIds(ds, now), ds[x].origin), x)
  }

  // --- the query with its free choices ---------------------------------------------

  /** A window the unlocked scan may return: as many due rows as fit, oldest first. */
  ghost predicate LegalWindow(ds: Table, now: Time, size: nat, window: set<Id>) {
    && window <= DueIds(ds, now)
    && |window| == Min(size, |DueIds(ds, now)|)
    && forall x, y :: x in window && y in DueIds(ds, now) - window ==> ds[x].claimableAt <= ds[y].claimableAt
  }

  /** Rows that survive the per-origin cap, the re-check on the table as it is now, and
      the locks of other workers. */
  ghost function Candidates(s: Settings, snapshot: Table, window: set<Id>, current: Table,
                            now: Time, locked: set<Id>): set<Id>
    requires window <= snapshot.Keys
  {
    set x | x in window && RowNumber(snapshot, now, x) <= s.maxClaimsPerOrigin
            && x in current && Due(current[x], now) && x !in locked
  }

  /** Everything one claim may hand out: `snapshot` is what the ranking saw, `current` the
      table when the chosen rows are locked. */
  ghost predicate LegalClaim(s: Settings, current: Table, now: Time, limit: int, snapshot: Table,
                             window: set<Id>, locked: set<Id>, picks: set<Id>)
  {
    if limit <= 0 then picks == {}
    else
      && limit * s.claimScanMultiplier >= 0
      && LegalWindow(snapshot, now, limit * s.claimScanMultiplier, window)
      && var cand := Candidates(s, snapshot, window, current, now, locked);
      && picks <= cand
      && |picks| == Min(limit, |cand|)
      && forall p, q :: p in picks && q in cand - picks ==> snapshot[p].claimableAt <= snapshot[q].claimableAt
  }

  // --- ranks ------------------------------------------------------------------------

  ghost function AnyOf<T>(ids: set<T>): (x: T)
    requires ids != {}
    ensures x in ids
  {
    var y :| y in ids;
    y
  }

  lemma {:induction false} LastExists(ds: Table, ids: set<Id>) returns (m: Id)
    requires ids <= ds.Keys
    requires ids != {}
    ensures m in ids
    ensures forall x :: x in ids && x != m ==> Before(ds, x, m)
    decreases |ids|
  {
    var a := AnyOf(ids);
    m := a;
    var rest := ids - {a};
    if rest == {} {
      assert ids == {a};
    } else {
      var b := LastExists(ds, rest);
      assert b in rest;
      if Before(ds, a, b) { m := b; }
      forall x | x in ids && x != m ensures Before(ds, x, m) {
        if x in rest && x != b { assert Before(ds, x, b); }
      }
    }
  }

  lemma {:induction false} FirstExists(ds: Table, ids: set<Id>) returns (m: Id)
    requires ids <= ds.Keys
    requires ids != {}
    ensures m in ids
    ensures forall x :: x in ids && x != m ==> Before(ds, m, x)
    decreases |ids|
  {
    var a := AnyOf(ids);
    m := a;
    var rest := ids - {a};
    if rest == {} {
      assert ids == {a};
    } else {
      var b := FirstExists(ds, rest);
      assert b in rest;
      if Before(ds, b, a) { m := b; }
      forall x | x in ids && x != m ensures Before(ds, m, x) {
        if x in rest && x != b { assert Before(ds, b, x); }
      }
    }
  }

  /** Removing the last row of a set changes no other rank. */
  lemma WithoutLast(ds: Table, ids: set<Id>, m: Id, k: nat)
    requires ids <= ds.Keys && m in ids
    requires forall x :: x in ids && x != m ==> Before(ds, x, m)
    ensures FirstK(ds, ids, k) == FirstK(ds, ids - {m}, k) + if |ids| <= k then {m} else {}
  {
    var rest := ids - {m};
    forall x | x in rest ensures Rank(ds, ids, x) == Rank(ds, rest, x) {
      assert Before(ds, x, m);
      assert (set y | y in ids && Before(ds, y, x)) == (set y | y in rest && Before(ds, y, x));
    }
    assert (set y | y in ids && Before(ds, y, m)) == rest;
    assert Rank(ds, ids, m) == |ids| - 1;
  }

  /** A cut of k rows keeps min(k, all) of them. */
  lemma {:induction false} FirstKSize(ds: Table, ids: set<Id>, k: nat)
    requires ids <= ds.Keys
    ensures |FirstK(ds, ids, k)| == Min(k, |ids|)
    decreases |ids|
  {
    if ids == {} {
      assert FirstK(ds, ids, k) == {};
    } else {
      var m := LastExists(ds, ids);
      FirstKSize(ds, ids - {m}, k);
      WithoutLast(ds, ids, m, k);
    }
  }

  /** A cut is closed downwards: whatever comes before a kept row is kept. */
  lemma FirstKDownward(ds: Table, ids: set<Id>, k: nat, x: Id, y: Id)
    requires ids <= ds.Keys && x in FirstK(ds, ids, k) && y in ids && Before(ds, y, x)
    ensures y in FirstK(ds, ids, k)
  {
    SubsetSize(set z | z in ids && Before(ds, z, y), set z | z in ids && Before(ds, z, x));
  }

  lemma {:induction false} SubsetSize<T>(a: set<T>, b: set<T>)
    requires a <= b
    ensures |a| <= |b|
    decreases |a|
  {
    if a != {} {
      var x :| x in a;
      SubsetSize(a - {x}, b - {x});
    }
  }

  /** A part as large as the whole is the whole. */
  lemma {:induction false} SameSize<T(!new)>(part: set<T>, whole: set<T>)
    requires part <= whole && |part| == |whole|
    ensures part == whole
    decreases |part|
  {
    if part != {} {
      var x := AnyOf(part);
      SameSize(part - {x}, whole - {x});
      assert part == (part - {x}) + {x} && whole == (whole - {x}) + {x};
    }
  }

  /** A set of rows whose ranks within a larger set stay below k has at most k members. */
  lemma LowRanksAreFew(ds: Table, all: set<Id>, few: set<Id>, k: nat)
    requires few <= all <= ds.Keys
    requires forall x :: x in few ==> Rank(ds, all, x) < k
    ensures |few| <= k
  {
    if few != {} {
      var m := LastExists(ds, few);
      SubsetSize(few - {m}, set y | y in all && Before(ds, y, m));
    }
  }

  // --- safety of the two-phase claim --------------------------------------------------

  /** Origins never change, so any earlier state of the table agrees with the current one. */
  ghost predicate OriginsAgree(snapshot: Table, current: Table) {
    forall d :: d in snapshot && d in current ==> snapshot[d].origin == current[d].origin
  }

  /** However old the ranking and however ties fall, a claim hands out only rows that are
      due now, at most `limit` of them, and at most `max_claims_per_origin` per origin. */
  lemma StaleRankingIsSafe(s: Settings, current: Table, now: Time, limit: int, snapshot: Table,
                           window: set<Id>, locked: set<Id>, picks: set<Id>, origin: string)
    requires InRange(s) && OriginsAgree(snapshot, current)
    requires LegalClaim(s, current, now, limit, snapshot, window, locked, picks)
    ensures picks <= DueIds(current, now) && picks !! locked
    ensures |picks| <= Max(limit, 0)
    ensures |OfOrigin(current, picks, origin)| <= s.maxClaimsPerOrigin
  {
    var mine := OfOrigin(current, picks, origin);
    if limit > 0 {
      var all := OfOrigin(snapshot, DueIds(snapshot, now), origin);
      forall x | x in mine ensures x in all && Rank(snapshot, all, x) < s.maxClaimsPerOrigin {
        assert RowNumber(snapshot, now, x) <= s.maxClaimsPerOrigin;
      }
      LowRanksAreFew(snapshot, all, mine, s.maxClaimsPerOrigin);
    }
  }

  /** The due rows of an origin that stand before x: earlier, or equally early with a smaller id. */
  ghost predicate Precedes(ds: Table, now: Time, y: Id, x: Id)
    requires x in ds
  {
    && y in ds && ds[y].status in {Pending, InFlight} && ds[y].claimableAt <= now
    && ds[y].origin == ds[x].origin
    && (ds[y].claimableAt < ds[x].claimableAt || (ds[y].claimableAt == ds[x].claimableAt && y < x))
  }

  lemma RowNumberCounts(ds: Table, now: Time, x: Id)
    requires x in ds
    ensures RowNumber(ds, now, x) == 1 + |set y | y in ds && Precedes(ds, now, y, x)|
  {
    var mine := OfOrigin(ds, DueIds(ds, now), ds[x].origin);
    var before, written := set y | y in mine && Before(ds, y, x), set y | y in ds && Precedes(ds, now, y, x);
    forall y | y in before ensures y in written {
    }
    forall y | y in written ensures y in before {
    }
    assert before == written;
  }

  /** What a claimed row was: open and due when it was locked, locked by nobody else, and with fewer than
      `max_claims_per_origin` due rows of its origin before it when the ranking was made. */
  lemma WhatIsPicked(s: Settings, current: Table, now: Time, limit: int, snapshot: Table,
                     window: set<Id>, locked: set<Id>, picks: set<Id>, x: Id)
    requires LegalClaim(s, current, now, limit, snapshot, window, locked, picks) && x in picks
    ensures x in current && current[x].status in {Pending, InFlight} && current[x].claimableAt <= now && x !in locked
    ensures x in snapshot && |set y | y in snapshot && Precedes(snapshot, now, y, x)| < s.maxClaimsPerOrigin
  {
    assert x in Candidates(s, snapshot, window, current, now, locked);
    RowNumberCounts(snapshot, now, x);
  }

  /** Why such a row was left: the batch is full of rows that were due no later, or the window is. */
  lemma WhyNotPicked(s: Settings, current: Table, now: Time, limit: int, snapshot: Table,
                     window: set<Id>, locked: set<Id>, picks: set<Id>, x: Id)
    requires LegalClaim(s, current, now, limit, snapshot, window, locked, picks) && limit > 0 && x !in picks
    requires x in snapshot && snapshot[x].status in {Pending, InFlight} && snapshot[x].claimableAt <= now
    requires x in current && current[x].status in {Pending, InFlight} && current[x].claimableAt <= now && x !in locked
    requires |set y | y in snapshot && Precedes(snapshot, now, y, x)| < s.maxClaimsPerOrigin
    ensures var full, size := if x in window then picks else window, if x in window then limit
                                                                   else limit * s.claimScanMultiplier;
            && |full| == size
            && forall y :: y in full ==> y in snapshot && snapshot[y].claimableAt <= snapshot[x].claimableAt
  {
    RowNumberCounts(snapshot, now, x);
    var cand := Candidates(s, snapshot, window, current, now, locked);
    if x in window {
      assert x in cand - picks;
      if |cand| <= limit { SameSize(picks, cand); }
    } else {
      assert x in DueIds(snapshot, now) - window;
      if |DueIds(snapshot, now)| <= limit * s.claimScanMultiplier { SameSize(window, DueIds(snapshot, now)); }
    }
  }

  // --- ties resolved by id: the ordered claim -----------------------------------------

  ghost function OrderedWindow(s: Settings, ds: Table, now: Time, limit: int): set<Id> {
    FirstK(ds, DueIds(ds, now), limit * s.claimScanMultiplier)
  }

  ghost function Kept(s: Settings, ds: Table, now: Time, limit: int): set<Id> {
    set x | x in OrderedWindow(s, ds, now, limit) && RowNumber(ds, now, x) <= s.maxClaimsPerOrigin
  }

  /** The claim of an uncontended worker when equally old rows are taken in id order. */
  ghost function OrderedPicks(s: Settings, ds: Table, now: Time, limit: int): set<Id> {
    if limit <= 0 then {} else FirstK(ds, Kept(s, ds, now, limit), limit)
  }

  lemma WindowIsPositive(s: Settings, limit: int)
    requires InRange(s) && limit > 0
    ensures limit * s.claimScanMultiplier >= limit
  {
  }

  lemma OrderedIsLegal(s: Settings, ds: Table, now: Time, limit: int)
    requires InRange(s)
    ensures LegalClaim(s, ds, now, limit, ds, OrderedWindow(s, ds, now, limit), {}, OrderedPicks(s, ds, now, limit))
  {
    if limit > 0 {
      WindowIsPositive(s, limit);
      var due, size := DueIds(ds, now), limit * s.claimScanMultiplier;
      var window, kept := OrderedWindow(s, ds, now, limit), Kept(s, ds, now, limit);
      FirstKSize(ds, due, size);
      forall x, y | x in window && y in due - window ensures ds[x].claimableAt <= ds[y].claimableAt {
        if Before(ds, y, x) { FirstKDownward(ds, due, size, x, y); }
      }
      assert Candidates(s, ds, window, ds, now, {}) == kept;
      FirstKSize(ds, kept, limit);
      var picks := OrderedPicks(s, ds, now, limit);
      forall p, q | p in picks && q in kept - picks ensures ds[p].claimableAt <= ds[q].claimableAt {
        if Before(ds, q, p) { FirstKDownward(ds, kept, limit, p, q); }
      }
    }
  }

  /** The oldest due row is always in the batch. */
  lemma HeadIsPicked(s: Settings, ds: Table, now: Time, limit: int, head: Id)
    requires InRange(s) && limit > 0
    requires head in DueIds(ds, now)
    requires forall x :: x in DueIds(ds, now) && x != head ==> Before(ds, head, x)
    ensures head in OrderedPicks(s, ds, now, limit)
  {
    WindowIsPositive(s, limit);
    var due := DueIds(ds, now);
    NothingBefore(ds, due, head);
    NothingBefore(ds, OfOrigin(ds, due, ds[head].origin), head);
    NothingBefore(ds, Kept(s, ds, now, limit), head);
  }

  lemma NothingBefore(ds: Table, ids: set<Id>, head: Id)
    requires ids <= ds.Keys && head in ds
    requires forall x :: x in ids && x != head ==> Before(ds, head, x)
    ensures Rank(ds, ids, head) == 0
  {
    assert (set y | y in ids && Before(ds, y, head)) == {};
  }

  /** An ordered claim comes back empty exactly when nothing is due. */
  lemma EmptyOnlyIfNothingDue(s: Settings, ds: Table, now: Time, limit: int)
    requires InRange(s) && limit > 0
    ensures OrderedPicks(s, ds, now, limit) == {} <==> DueIds(ds, now) == {}
  {
    if DueIds(ds, now) != {} {
      var head := FirstExists(ds, DueIds(ds, now));
      HeadIsPicked(s, ds, now, limit, head);
    }
  }
}
