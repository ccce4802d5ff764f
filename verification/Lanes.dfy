// The life of one delivery: its row, its journal and every claim ever handed out for it.
// A world of deliveries is a map of such lanes, so what holds of every lane under every
// deed holds of the whole queue under every interleaving.

module Lanes {
  import opened Types
  import opened Config
  import opened Rows
  import Retry
  import Sender

  /** The HTTP request of one claim. */
  datatype Wire = Unsent | OnWire(start: Time) | Closed(start: Time, end: Time)

  /** What became of a claim: still held, reported to the queue, or forgotten by a crash. */
  datatype Fate = Held | Reported(response: Sender.Response) | Dropped

  /** A claim handed to a worker. Tokens are history: they are never removed. */
  datatype Token = Token(worker: WorkerId, claim: Claim, claimedAt: Time, wire: Wire, fate: Fate)

  /** `tokens[n - 1]` is attempt number n. `gaps` are the attempts whose expired row a manual
      requeue took over before any worker reclaimed it, `displaced` those whose row a report about
      an older attempt took; either only as long as the attempt itself is not reported. */
  datatype Lane = Lane(id: Id, row: Delivery, journal: Journal, tokens: seq<Token>, gaps: set<nat>, displaced: set<nat>)

  datatype Deed =
    | Idle
    | Take(worker: WorkerId, request: Request)
    | StartSend(n: nat)
    | EndSend(n: nat)
    | Record(n: nat, response: Sender.Response, draw: real)
    | Forget(gone: set<nat>)
    | Reset(includeDelivered: bool)

  predicate HasToken(lane: Lane, n: nat) {
    1 <= n <= |lane.tokens|
  }

  /** A report about an older attempt that takes the row from the attempt in flight: a success always
      does, a failure if the row is in flight under the name of the worker that reports. */
  predicate Displaces(lane: Lane, deed: Deed) {
    && deed.Record? && HasToken(lane, deed.n) && deed.n < |lane.tokens|
    && lane.row.status == InFlight
    && (Sender.ErrorKind(deed.response).None? || lane.row.lockedBy == Some(lane.tokens[deed.n - 1].worker))
  }

  ghost predicate Can(s: Settings, now: Time, lane: Lane, deed: Deed) {
    match deed
    case Idle => true
    case Take(_, _) => Due(lane.row, now)
    case StartSend(n) => HasToken(lane, n) && lane.tokens[n - 1].fate == Held && lane.tokens[n - 1].wire == Unsent
    case EndSend(n) => HasToken(lane, n) && lane.tokens[n - 1].fate == Held && lane.tokens[n - 1].wire.OnWire?
    case Record(n, _, draw) =>
      && HasToken(lane, n) && lane.tokens[n - 1].fate == Held && lane.tokens[n - 1].wire.Closed?
      && (lane.tokens[n - 1].claim.budgetAttempt >= 1 ==> Retry.Draw(s, lane.tokens[n - 1].claim.budgetAttempt, draw))
    case Forget(_) => true
    case Reset(_) => true
  }

  function Hang(wire: Wire, now: Time): Wire {
    if wire.OnWire? then Closed(wire.start, now) else wire
  }

  function Lose(t: Token, now: Time): Token {
    if t.fate == Held then t.(fate := Dropped, wire := Hang(t.wire, now)) else t
  }

  function ResultOf(t: Token, response: Sender.Response): AttemptResult
    requires t.wire.Closed?
  {
    Sender.Result(response, t.wire.start, t.wire.end)
  }

  ghost function Do(s: Settings, now: Time, lane: Lane, deed: Deed): Lane
    requires Can(s, now, lane, deed)
  {
    match deed
    case Idle => lane
    case Take(worker, request) =>
      var taken := TakeRow(lane.row, now, worker, s.lease);
      lane.(row := taken,
            journal := RecordLost(lane.journal, lane.row, now, worker),
            tokens := lane.tokens + [Token(worker, ClaimOf(lane.id, taken, request), now, Unsent, Held)])
    case StartSend(n) =>
      lane.(tokens := lane.tokens[n - 1 := lane.tokens[n - 1].(wire := OnWire(now))])
    case EndSend(n) =>
      lane.(tokens := lane.tokens[n - 1 := lane.tokens[n - 1].(wire := Closed(lane.tokens[n - 1].wire.start, now))])
    case Record(n, response, draw) =>
      var t := lane.tokens[n - 1];
      (match RecordResult(s, lane.row, lane.journal, t.worker, t.claim, ResultOf(t, response), draw, now)
       case Ok((row, journal)) =>
         lane.(row := row, journal := journal, tokens := lane.tokens[n - 1 := t.(fate := Reported(response))],
               gaps := lane.gaps - {n},
               displaced := (lane.displaced + if Displaces(lane, deed) then {|lane.tokens|} else {}) - {n})
       case Err(_) =>
         lane.(tokens := lane.tokens[n - 1 := t.(fate := Dropped)]))
    case Forget(gone) =>
      lane.(tokens := seq(|lane.tokens|, i requires 0 <= i < |lane.tokens| =>
              if i + 1 in gone then Lose(lane.tokens[i], now) else lane.tokens[i]))
    case Reset(all) =>
      lane.(row := RequeueRow(lane.row, all, now),
            gaps := if Classify(lane.row, all, now) == Requeued && IsReclaim(lane.row)
                    then lane.gaps + {lane.row.totalAttempts} else lane.gaps)
  }

  /** A lane as the intake creates it. */
  function NewLane(id: Id, row: Delivery): Lane {
    Lane(id, row, map[], [], {}, {})
  }

  // --- what every deed keeps ------------------------------------------------------

  /** The farthest in the future a row that is still going somewhere can become claimable. */
  function Horizon(s: Settings): real {
    MaxR(s.lease, MaxR(Retry.MIN_DELAY, s.retryCap * (1.0 + s.retryJitter)))
  }

  ghost predicate RowShape(s: Settings, now: Time, row: Delivery) {
    && (row.status == InFlight <==> row.leaseExpiresAt.Some?)
    && (row.status == InFlight <==> row.lockedBy.Some?)
    && (row.status == Delivered <==> row.deliveredAt.Some?)
    && (row.status == Failed <==> row.failedAt.Some?)
    && (row.status == InFlight ==> row.claimableAt == row.leaseExpiresAt.value)
    && (row.status != InFlight ==> row.claimableAt == row.nextAttemptAt)
    && (Open(row) ==> row.claimableAt <= now + Horizon(s))
    && row.createdAt <= now
  }

  ghost predicate WireOk(s: Settings, now: Time, t: Token) {
    match t.wire
    case Unsent => !t.fate.Reported?
    case OnWire(start) => t.fate == Held && t.claimedAt <= start <= now <= start + s.attemptDeadline
    case Closed(start, end) => t.claimedAt <= start <= end <= now && end <= start + s.attemptDeadline
  }

  ghost predicate TokenOk(s: Settings, now: Time, request: Request, lane: Lane, i: nat)
    requires i < |lane.tokens|
  {
    var t := lane.tokens[i];
    var row := lane.row;
    && t.claim == Claim(lane.id, row.requestId, row.name, row.url, row.origin, t.claim.budgetAttempt, i + 1, request)
    && t.claim.budgetAttempt >= 1
    && (i == 0 ==> t.claim.budgetAttempt == 1)
    && t.claimedAt <= now
    && WireOk(s, now, t)
  }

  /** Successive claims count on from one another, or start over at 1. */
  ghost predicate Chained(tokens: seq<Token>) {
    forall i, j :: 0 <= i && j == i + 1 && j < |tokens| ==>
      && tokens[i].claimedAt <= tokens[j].claimedAt
      && (tokens[j].claim.budgetAttempt == tokens[i].claim.budgetAttempt + 1 || tokens[j].claim.budgetAttempt == 1)
  }

  ghost predicate Ledger(s: Settings, now: Time, request: Request, lane: Lane) {
    && |lane.tokens| == lane.row.totalAttempts
    && (forall i :: 0 <= i < |lane.tokens| ==> TokenOk(s, now, request, lane, i))
    && Chained(lane.tokens)
    && lane.row.attempts <= lane.row.totalAttempts
    && (lane.row.attempts > 0 ==> lane.tokens[|lane.tokens| - 1].claim.budgetAttempt == lane.row.attempts)
  }

  /** A row in flight belongs to the newest claim, which has not been reported. */
  ghost predicate OwnedByNewest(s: Settings, lane: Lane) {
    lane.row.status == InFlight ==>
      && lane.row.attempts > 0
      && lane.tokens != []
      && var t := lane.tokens[|lane.tokens| - 1];
      && lane.row.lockedBy == Some(t.worker)
      && lane.row.leaseExpiresAt == Some(t.claimedAt + s.lease)
      && lane.row.lastAttemptAt == Some(t.claimedAt)
      && !t.fate.Reported?
      && |lane.tokens| !in lane.journal
      && |lane.tokens| !in lane.gaps && |lane.tokens| !in lane.displaced
  }

  function OutcomeOf(fate: Fate): Outcome {
    match fate
    case Reported(r) => if Sender.ErrorKind(r).None? then Success else Failure
    case _ => Unknown
  }

  /** An entry says what the claim that owns its number reported, or that it is unknown. */
  ghost predicate EntryOk(lane: Lane, n: nat)
    requires n in lane.journal
  {
    && HasToken(lane, n)
    && var e, t := lane.journal[n], lane.tokens[n - 1];
    && e.requestId == lane.row.requestId && e.url == lane.row.url
    && e.budgetAttempt == t.claim.budgetAttempt
    && e.outcome == OutcomeOf(t.fate)
    && (t.fate.Reported? ==>
          && t.wire.Closed?
          && e.errorKind == Sender.ErrorKind(t.fate.response)
          && e.statusCode == Sender.StatusCode(t.fate.response)
          && e.finishedAt == t.wire.end
          && e.worker == t.worker
          && (e.startedAt == t.claimedAt || e.startedAt == t.wire.start))
    && (!t.fate.Reported? ==> e.errorKind == Some("lease_expired") && e.startedAt == t.claimedAt)
  }

  ghost predicate JournalTrue(lane: Lane) {
    && (forall n :: n in lane.journal ==> EntryOk(lane, n))
    && (forall n :: HasToken(lane, n) && lane.tokens[n - 1].fate.Reported? ==> n in lane.journal)
    && (lane.row.status == Delivered ==> exists n :: n in lane.journal && lane.journal[n].outcome == Success)
  }

  ghost predicate OnlyAttemptsMissing(lane: Lane) {
    forall n :: n in lane.gaps || n in lane.displaced ==> HasToken(lane, n)
  }

  /** What holds of every lane in every run, however late or lost the reports are. */
  ghost predicate LaneInv(s: Settings, now: Time, request: Request, lane: Lane) {
    && RowShape(s, now, lane.row)
    && Ledger(s, now, request, lane)
    && OwnedByNewest(s, lane)
    && JournalTrue(lane)
    && OnlyAttemptsMissing(lane)
  }

  lemma HorizonBounds(s: Settings, budget: nat, draw: real)
    requires InRange(s) && budget >= 1 && Retry.Draw(s, budget, draw)
    ensures Retry.NextDelay(s, budget, draw).Ok?
    ensures Retry.MIN_DELAY <= Retry.NextDelay(s, budget, draw).value <= Horizon(s)
  {
    Retry.JitterBand(s, budget, draw);
  }

  lemma NewLaneInv(s: Settings, now: Time, request: Request, id: Id, requestId: Id, r: Recipient)
    requires Validated(s)
    ensures LaneInv(s, now, request, NewLane(id, NewRow(requestId, r, now)))
  {
  }

  /** Time may pass as long as no request outlives the hard deadline of one attempt. */
  ghost predicate MayWait(s: Settings, to: Time, lane: Lane) {
    forall i :: 0 <= i < |lane.tokens| && lane.tokens[i].wire.OnWire? ==>
      to <= lane.tokens[i].wire.start + s.attemptDeadline
  }

  lemma WaitKeeps(s: Settings, now: Time, to: Time, request: Request, lane: Lane)
    requires LaneInv(s, now, request, lane) && now <= to && MayWait(s, to, lane)
    ensures LaneInv(s, to, request, lane)
  {
    forall i | 0 <= i < |lane.tokens| ensures TokenOk(s, to, request, lane, i) {
      assert TokenOk(s, now, request, lane, i);
    }
  }

  lemma TakeKeeps(s: Settings, now: Time, request: Request, lane: Lane, deed: Deed)
    requires Validated(s) && LaneInv(s, now, request, lane)
    requires deed.Take? && deed.request == request && Can(s, now, lane, deed)
    ensures LaneInv(s, now, request, Do(s, now, lane, deed))
  {
    var lane' := Do(s, now, lane, deed);
    forall i | 0 <= i < |lane'.tokens| ensures TokenOk(s, now, request, lane', i) {
      if i < |lane.tokens| { assert TokenOk(s, now, request, lane, i); }
    }
    if |lane.tokens| > 0 { assert TokenOk(s, now, request, lane, |lane.tokens| - 1); }
    forall n | n in lane'.journal ensures EntryOk(lane', n) {
      if n in lane.journal { assert EntryOk(lane, n); }
    }
  }

  /** Sends and crashes change only how far each claim has got on the wire. */
  lemma TokensKeep(s: Settings, now: Time, request: Request, lane: Lane, tokens: seq<Token>)
    requires LaneInv(s, now, request, lane) && |tokens| == |lane.tokens|
    requires forall i :: 0 <= i < |tokens| ==>
               && tokens[i].worker == lane.tokens[i].worker
               && tokens[i].claim == lane.tokens[i].claim
               && tokens[i].claimedAt == lane.tokens[i].claimedAt
               && (tokens[i] == lane.tokens[i] || (!tokens[i].fate.Reported? && !lane.tokens[i].fate.Reported?))
               && WireOk(s, now, tokens[i])
    ensures LaneInv(s, now, request, lane.(tokens := tokens))
  {
    var lane' := lane.(tokens := tokens);
    forall i | 0 <= i < |tokens| ensures TokenOk(s, now, request, lane', i) {
      assert TokenOk(s, now, request, lane, i);
    }
    forall n | n in lane'.journal ensures EntryOk(lane', n) {
      assert EntryOk(lane, n);
    }
  }

  lemma SendKeeps(s: Settings, now: Time, request: Request, lane: Lane, deed: Deed)
    requires Validated(s) && LaneInv(s, now, request, lane)
    requires (deed.StartSend? || deed.EndSend?) && Can(s, now, lane, deed)
    ensures LaneInv(s, now, request, Do(s, now, lane, deed))
  {
    var tokens := Do(s, now, lane, deed).tokens;
    forall i | 0 <= i < |tokens| ensures WireOk(s, now, tokens[i]) {
      assert TokenOk(s, now, request, lane, i);
    }
    TokensKeep(s, now, request, lane, tokens);
  }

  lemma ForgetKeeps(s: Settings, now: Time, request: Request, lane: Lane, deed: Deed)
    requires Validated(s) && LaneInv(s, now, request, lane) && deed.Forget?
    ensures LaneInv(s, now, request, Do(s, now, lane, deed))
  {
    var tokens := Do(s, now, lane, deed).tokens;
    forall i | 0 <= i < |tokens| ensures WireOk(s, now, tokens[i]) {
      assert TokenOk(s, now, request, lane, i);
    }
    TokensKeep(s, now, request, lane, tokens);
  }

  lemma ResetKeeps(s: Settings, now: Time, request: Request, lane: Lane, deed: Deed)
    requires Validated(s) && LaneInv(s, now, request, lane) && deed.Reset?
    ensures LaneInv(s, now, request, Do(s, now, lane, deed))
  {
    var lane' := Do(s, now, lane, deed);
    forall i | 0 <= i < |lane'.tokens| ensures TokenOk(s, now, request, lane', i) {
      assert TokenOk(s, now, request, lane, i);
    }
    forall n | n in lane'.journal ensures EntryOk(lane', n) {
      assert EntryOk(lane, n);
    }
  }

  /** What recording a result may do to the row: nothing, settle it, or schedule it again. */
  ghost predicate Moved(s: Settings, now: Time, row: Delivery, row': Delivery) {
    && RowShape(s, now, row')
    && row' == row.(status := row'.status, nextAttemptAt := row'.nextAttemptAt,
                    leaseExpiresAt := row'.leaseExpiresAt, lockedBy := row'.lockedBy,
                    lastOutcome := row'.lastOutcome, lastErrorKind := row'.lastErrorKind,
                    lastStatusCode := row'.lastStatusCode, deliveredAt := row'.deliveredAt,
                    failedAt := row'.failedAt, claimableAt := row'.claimableAt)
    && (row'.status == InFlight ==> row' == row)
  }

  /** The effect of one report on its lane, without naming the statements that cause it. */
  ghost predicate Recorded(s: Settings, now: Time, lane: Lane, deed: Deed, lane': Lane)
    requires deed.Record? && Can(s, now, lane, deed)
  {
    var t := lane.tokens[deed.n - 1];
    var ok := Sender.ErrorKind(deed.response).None?;
    && lane'.id == lane.id && lane'.gaps == lane.gaps - {deed.n}
    && lane'.displaced == (lane.displaced + if Displaces(lane, deed) then {|lane.tokens|} else {}) - {deed.n}
    && lane'.tokens == lane.tokens[deed.n - 1 := t.(fate := Reported(deed.response))]
    && Moved(s, now, lane.row, lane'.row)
    && (ok ==> lane'.row.status == Delivered)
    && (!ok ==> lane'.row.status == Delivered ==> lane.row.status == Delivered)
    && (!ok && lane.row.lockedBy == Some(t.worker) ==> lane'.row.status != InFlight)
    && exists sched :: lane'.journal == InsertAttempt(lane.journal, t.claim.attemptNumber,
                                                      EntryFor(t.worker, t.claim, ResultOf(t, deed.response), sched))
  }

  lemma RecordMoves(s: Settings, now: Time, lane: Lane, deed: Deed)
    requires Validated(s) && RowShape(s, now, lane.row)
    requires deed.Record? && Can(s, now, lane, deed)
    requires lane.tokens[deed.n - 1].claim.budgetAttempt >= 1
    ensures Recorded(s, now, lane, deed, Do(s, now, lane, deed))
  {
    var t := lane.tokens[deed.n - 1];
    HorizonBounds(s, t.claim.budgetAttempt, deed.draw);
  }

  lemma RecordedLedger(s: Settings, now: Time, request: Request, lane: Lane, deed: Deed, lane': Lane)
    requires LaneInv(s, now, request, lane)
    requires deed.Record? && Can(s, now, lane, deed) && Recorded(s, now, lane, deed, lane')
    ensures Ledger(s, now, request, lane')
  {
    forall i | 0 <= i < |lane'.tokens| ensures TokenOk(s, now, request, lane', i) {
      assert TokenOk(s, now, request, lane, i);
    }
  }

  lemma RecordedKeeps(s: Settings, now: Time, request: Request, lane: Lane, deed: Deed, lane': Lane)
    requires LaneInv(s, now, request, lane)
    requires deed.Record? && Can(s, now, lane, deed) && Recorded(s, now, lane, deed, lane')
    ensures LaneInv(s, now, request, lane')
  {
    RecordedLedger(s, now, request, lane, deed, lane');
    RecordEntries(s, now, request, lane, deed, lane');
  }

  lemma RecordKeeps(s: Settings, now: Time, request: Request, lane: Lane, deed: Deed)
    requires Validated(s) && LaneInv(s, now, request, lane)
    requires deed.Record? && Can(s, now, lane, deed)
    ensures LaneInv(s, now, request, Do(s, now, lane, deed))
  {
    assert TokenOk(s, now, request, lane, deed.n - 1);
    RecordMoves(s, now, lane, deed);
    RecordedKeeps(s, now, request, lane, deed, Do(s, now, lane, deed));
  }

  lemma OwnEntry(s: Settings, now: Time, request: Request, lane: Lane, deed: Deed, sched: Option<Time>, lane': Lane)
    requires Ledger(s, now, request, lane) && JournalTrue(lane)
    requires deed.Record? && Can(s, now, lane, deed)
    requires lane'.row.requestId == lane.row.requestId && lane'.row.url == lane.row.url
    requires lane'.tokens == lane.tokens[deed.n - 1 := lane.tokens[deed.n - 1].(fate := Reported(deed.response))]
    requires var t := lane.tokens[deed.n - 1];
             lane'.journal == InsertAttempt(lane.journal, deed.n,
                                            EntryFor(t.worker, t.claim, ResultOf(t, deed.response), sched))
    ensures deed.n in lane'.journal && EntryOk(lane', deed.n)
  {
    assert TokenOk(s, now, request, lane, deed.n - 1);
    assert deed.n in lane.journal ==> EntryOk(lane, deed.n);
  }

  lemma OtherEntries(lane: Lane, lane': Lane, n: nat)
    requires JournalTrue(lane) && HasToken(lane, n)
    requires lane'.row.requestId == lane.row.requestId && lane'.row.url == lane.row.url
    requires |lane'.tokens| == |lane.tokens| && lane'.tokens == lane.tokens[n - 1 := lane'.tokens[n - 1]]
    requires forall m :: m != n ==> (m in lane'.journal <==> m in lane.journal)
    requires forall m :: m != n && m in lane.journal ==> lane'.journal[m] == lane.journal[m]
    ensures forall m :: m != n && m in lane'.journal ==> EntryOk(lane', m)
  {
    forall m | m != n && m in lane'.journal ensures EntryOk(lane', m) {
      assert EntryOk(lane, m);
    }
  }

  /** The success of a delivered row is the entry of another attempt than one still held. */
  lemma SuccessStays(lane: Lane, n: nat, journal': Journal)
    requires JournalTrue(lane) && lane.row.status == Delivered && HasToken(lane, n) && lane.tokens[n - 1].fate == Held
    requires forall m :: m != n && m in lane.journal ==> m in journal' && journal'[m] == lane.journal[m]
    ensures exists m :: m in journal' && journal'[m].outcome == Success
  {
    var m :| m in lane.journal && lane.journal[m].outcome == Success;
    assert EntryOk(lane, m);
    assert m in journal' && journal'[m].outcome == Success;
  }

  lemma RecordEntries(s: Settings, now: Time, request: Request, lane: Lane, deed: Deed, lane': Lane)
    requires Ledger(s, now, request, lane) && JournalTrue(lane)
    requires deed.Record? && Can(s, now, lane, deed) && Recorded(s, now, lane, deed, lane')
    ensures JournalTrue(lane')
    ensures deed.n in lane'.journal && forall m :: m != deed.n ==> (m in lane'.journal <==> m in lane.journal)
  {
    var n := deed.n;
    var t := lane.tokens[n - 1];
    assert TokenOk(s, now, request, lane, n - 1);
    var sched :| lane'.journal == InsertAttempt(lane.journal, n,
                                                EntryFor(t.worker, t.claim, ResultOf(t, deed.response), sched));
    OwnEntry(s, now, request, lane, deed, sched, lane');
    OtherEntries(lane, lane', n);
    if Sender.ErrorKind(deed.response).None? {
      assert lane'.journal[n].outcome == Success;
    } else if lane'.row.status == Delivered {
      SuccessStays(lane, n, lane'.journal);
    }
  }

  /** No deed breaks a lane. */
  lemma DeedKeeps(s: Settings, now: Time, request: Request, lane: Lane, deed: Deed)
    requires Validated(s) && LaneInv(s, now, request, lane)
    requires Can(s, now, lane, deed) && (deed.Take? ==> deed.request == request)
    ensures LaneInv(s, now, request, Do(s, now, lane, deed))
  {
    match deed
    case Idle =>
    case Take(_, _) => TakeKeeps(s, now, request, lane, deed);
    case Record(_, _, _) => RecordKeeps(s, now, request, lane, deed);
    case Reset(_) => ResetKeeps(s, now, request, lane, deed);
    case Forget(_) => ForgetKeeps(s, now, request, lane, deed);
    case _ => SendKeeps(s, now, request, lane, deed);
  }
}
