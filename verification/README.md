# Verification of the lead intake and delivery service

A model, in Dafny, of a service that accepts leads over HTTP and delivers each of them to a list
of recipients at least once. PostgreSQL is both the state table and the queue: workers claim due
rows under a lease, send one HTTP request per claim and record the result; a crashed worker's rows
come back when the lease runs out; operators can put rows back in the queue by hand.

`dafny verify dfyconfig.toml` checks everything.

## What is modelled

The service is a state machine (`Protocol`) over a clock, the table of leads and one *lane* per
delivery. A lane (`Lanes`) is the delivery's row, its journal and every claim ever handed out for
it, with how far the claim's HTTP request got and what became of the claim. The events are the
service's transactions and what the world around it does: the clock moves, a lead is accepted,
recipients are attached, a batch is claimed, a request starts and ends, a result is reported, a
worker crashes, an operator requeues. Any number of workers interleave freely. Everything that is
not decided by the code is in the event: new ids, which of several equally old rows a `LIMIT`
keeps, which rows other workers have locked, the table an unlocked ranking saw, the draw of the
random generator, the answer of the recipient. A theorem about all legal runs is therefore a
theorem about every such choice.

`Rows` holds the SQL statements as their effect on one row and its journal, including the trigger
that derives `claimable_at`. `Store` is the imperative side: a class with three mutable tables and
one method per transaction. Each method is proved to move the tables exactly as the corresponding
event moves the state machine, so what is proved of runs holds of the tables. `Worker` is the worker
object with its set of running tasks, `Reporting` the read side, `Config`, `Retry`, `Intake`,
`Sender` and `Requeue` the remaining parts. `Wire`, `Faults`, `Bookkeeping`, `Punctual`, `Guarantees`,
`History` and `Waiting` hold what is proved of runs, `Overlap`, `Starvation` and `Witnesses` the limits
and the runs in which a promise fails.

Some theorems exclude late sends or harmful reports and name them. A send is *prompt* if the request,
at its hard deadline, ends within the lease of its claim. `Faults` has the four kinds of harmful report,
all about an attempt that is not the newest:

* *displacement*: it takes the row from the attempt in flight - a success always does, a failure if the
  row is in flight under the reporting worker's name;
* *misjudgement*: a displacing failure whose attempt stands on the other side of the budget than the one
  in flight;
* *usurpation*: it moves the row at all, other than a success that repeats the last entry;
* *override*: a displacement of a claim that is on the wire or could still go out promptly.

Each is exactly what breaks one promise, as the lemmas below say. Late reports of any other kind, and
crashes, are allowed everywhere. *Timely* reports - recorded strictly before the lease of their claim
runs out, or never - are of none of the four kinds (`TimelyRunsAreFree`). The code enforces neither
prompt sends nor timely reports; `lease_seconds > attempt_deadline_seconds` makes both possible.

## What does not hold

Where a promise of the code or of its documentation fails, there is a lemma that says exactly when.

* An idle worker may find work and leave it. The scan of the claim query orders by `claimable_at`
  alone, while the per-origin numbering also uses the id. An uncontended claim can come back empty
  although rows are due exactly when the oldest instant holds at least one whole window of rows that
  stand behind their origin's cap (`EmptyClaimIsPossible`, `StarvationIsPossible`). A lead for many
  addresses of one host, or a bulk requeue, gives all its rows one instant, so from
  `limit * claim_scan_multiplier + max_claims_per_origin` rows of one origin on the burst can starve
  (`BurstStarves`); `StarvationIsReachable` is such a run for all settings, and with the shipped ones
  nine addresses do (`NineAddressesStarve`). Below that, or with ties resolved by id, it cannot happen
  (`ProgressiveIsEmpty`).
* Two requests for one delivery can overlap after a late report. `_MARK_DELIVERED` asks nothing of the
  lease, and `_MARK_FAILURE` compares the worker, not the attempt. From a safe state, a report can lead
  to an overlap exactly when it is about an older claim, moves the row - a success always, a failure if
  the row is in flight under the reporting worker's name - and the newest claim is on the wire or can
  still go out promptly (`OverrideIsTheLimit`). Both kinds are shown as runs from an empty database: a
  worker that reclaimed its own expired row reports the older failure (`LateFailureOverlaps`), and a
  late success is followed by a manual retry that opts in to delivered rows (`LateSuccessOverlaps`).
* They can also overlap after a late send. `attempt_deadline_seconds` runs from the send,
  `lease_seconds` from the claim. From a safe state, sending the newest claim can lead to an overlap
  exactly when the deadline of the request lies behind the end of the lease (`LateSendIsTheLimit`);
  `LateSendOverlaps` is such a run, without any report.
* Pages of the problem list can lose a row and repeat another. The list is ordered by
  `(trouble_since, request_id)`, and a client that pages through all of it is sure to see every problem
  exactly when no page boundary runs between two rows with equal keys (`PagingIsComplete`). Recipients
  that were added together and stall together always have equal keys (`SiblingsTie`).
* The problem counters and the problem list are two statements with one clock but a snapshot each. With
  one event in between they agree exactly if it does not move the counter (`CountsAcrossOneEvent`), and
  `CounterMoves` says which events do, a lead accepted without recipients for one
  (`ListedButNotCounted`).
* An attempt can stay missing from the journal, in exactly two ways (`TwoWaysToLoseAnEntry`): a manual
  requeue of an expired row writes no placeholder, and neither does a report about an older attempt that
  takes the row from the one in flight. Unless the attempt reports itself later, it is never on record;
  `DisplacedAndForgotten` is such a run without any manual retry. `JournalIsComplete` says of every run
  what is missing.
* A late failure can settle a row by the wrong budget: failed with budget left, or pending without any
  (`BudgetExact`, with the run `LateFailureMisjudges`). A late report can leave a row that does not
  repeat its last entry (`LastEntryExact`; `DisplacedAndForgotten` ends in such a state).
* The placeholder for a lost attempt carries the name of the worker that reclaimed the row, not of the
  one that made the attempt (`ReclaimIsLogged`).

## Model

| member | source | states |
|---|---|---|
| Guarantees.WireExclusion | app/config.py:131-139 | over every run of prompt sends in which no report takes a row from a newer claim that can still send - late reports, crashes, reclaims and requeues included - two requests for one delivery are never on the wire together: the lower attempt number is over before the next one starts |
| Overlap.OverrideIsTheLimit | app/queue.py:260-293 | the exact limit for reports: from any state that is still safe, a report can be followed by prompt sends, without a further such report, to two overlapping requests if and only if it takes the row from a newer claim that can still send |
| Overlap.LateSendIsTheLimit | app/sender.py:105-117 | the exact limit for sends: from any state that is still safe, sending the newest claim can be followed by prompt sends, without such a report, to two overlapping requests if and only if the request may outlast the lease of its claim |
| Witnesses.LateFailureOverlaps | app/queue.py:291 | a run from an empty database with the shipped settings in which the late failure of a worker that reclaimed its own row lets two requests for one delivery overlap |
| Witnesses.LateSuccessOverlaps | app/queue.py:260-275 | another such run without any failure: a late success, then a requeue that opts in to delivered rows |
| Witnesses.LateSendOverlaps | app/sender.py:107-115 | a third one without any report: the deadline runs from the send and the lease from the claim, so a request that starts late meets the one of the next claim |
| Guarantees.TimelyRunsAreFree | app/queue.py:277-293 | runs of timely reports contain no report of any of the four harmful kinds, so everything below that excludes one holds of them |
| Guarantees.SafeRunKeeps | app/queue.py:326-336 | the order on the wire is kept by every run of prompt sends without such a report, lost leases included |
| Wire.SendsExclude | app/sender.py:105-117 | the same for one delivery whose claims are ordered on the wire, with the hard deadline as the latest end of a request still running |
| Wire.DeedOrdered | app/queue.py:131-137 | a new lease starts only after no earlier claim of the delivery is sending or can promptly start to; no step undoes that except a report that takes the row from a newer claim that can still send |
| Guarantees.JournalIsComplete | app/queue.py:160-177 | in every run the journal holds exactly the numbers 1..total_attempts, except the attempt in flight, those whose expired row a manual requeue took and those whose row a report about an older attempt took, each until it is itself reported; the last exception is empty without such reports |
| Guarantees.TwoWaysToLoseAnEntry | app/queue.py:384-404 | an event makes an attempt go missing from the journal iff it is a report about an older attempt that takes the row in flight, or a manual requeue of the expired row |
| Witnesses.DisplacedAndForgotten | app/queue.py:260-275 | a run without any manual retry that ends delivered after two attempts of which the second is never journalled and the row does not repeat its last entry |
| Bookkeeping.DeedExact | app/queue.py:338-354 | every step, reports however late included, keeps the journal exact in that sense |
| Guarantees.JournalIsAuthentic | app/queue.py:235-258 | in every run each entry says what the claim owning its number reported, or that it is unknown; every report is journalled |
| Guarantees.JournalTellsTheAnswer | app/sender.py:118-135 | in every run the entry of a reported attempt carries the status code that was answered, success without error kind iff it is 2xx, otherwise failure with the error kind of its range, or no code and the kind of the transport error; and who sent it and when it ended |
| Guarantees.RowTellsTheAnswer | app/queue.py:263-293 | a report that moves the row leaves on it the same verdict: outcome, error kind and status code of the answer |
| Guarantees.ReportIsWrittenDown | app/queue.py:235-258 | the rest of the entry of a report: lead, address, worker and budget position of its claim, when it ended, when it started - as the placeholder has it, if there is one - and the planned pause exactly if the report put the row back in the queue |
| Rows.KnownFactStays | app/queue.py:238-258 | a known entry is never rewritten; a placeholder takes outcome, error, code, end, pause and worker of the report and keeps the rest |
| Guarantees.RowAndJournalAgree | app/queue.py:311-336 | unless a failure of an older attempt misjudges the one in flight, a pending row has budget left and a failed row has none; unless a report about an older attempt moves the row, a settled or rescheduled row repeats outcome, error, status code and planned pause of its last journal entry |
| Bookkeeping.BudgetExact | app/queue.py:311-324 | the exact condition: a step spoils the agreement of status and budget iff it is a failure of an older attempt that takes the row while it stands on the other side of the budget than the attempt in flight |
| Bookkeeping.LastEntryExact | app/queue.py:263-293 | the exact condition: a step spoils the agreement of row and last entry iff it is a report about an older attempt that moves the row, other than a success that repeats that entry |
| Bookkeeping.RowFrame | app/queue.py:131-137 | what each statement leaves alone: only a report writes the last outcome, error and status code; a claim keeps schedule and settlement, a report both counters, and the schedule unless it puts the row back; no step moves a row to another lead or address |
| Witnesses.LateFailureMisjudges | app/queue.py:311-324 | a run with a budget of two in which the late failure of the first attempt leaves a row waiting although the budget is spent |
| Guarantees.NoRowIsStuck | migrations/001_init.sql:110-127 | in every run an open row is claimable within max(lease, 0.5, cap * (1 + jitter)), at its backoff or lease deadline; owner and lease are set exactly while in flight |
| Guarantees.DeliveredMeansAnswered | app/queue.py:260-275 | a delivered row has a success entry for one of its own attempts that was answered with a 2xx status |
| Guarantees.KeyIdentity | app/sender.py:67-76 | over every run the attempt header of a request is the number of its claim and the request id names its lead; two requests carry the same Idempotency-Key iff they are for the same source, key and URL, and the pair with the attempt never repeats |
| Guarantees.WhatArrivesWasAccepted | app/sender.py:54-64 | over every run the body of every request is the lead as first accepted under its key, with the time of that accept, and its address is one the lead was accepted for or given later |
| Guarantees.CountersAreConsistent | migrations/001_init.sql:49-55 | claim n carries number n, total_attempts counts the claims, journal entries carry their claim's position in the budget |
| History.BudgetRestartsAtRequeue | app/queue.py:395-397 | of two successive claims the second carries the next position in the budget, or 1 exactly if a manual retry put the row back in between |
| Punctual.TimelyReporterOwns | app/queue.py:277-293 | a timely report comes from the claim that owns the row and whose number is not journalled yet |
| Punctual.DeedTimely | app/queue.py:296-354 | every step with timely reports keeps: only the owner of a row can still report in time |
| Lanes.DeedKeeps | app/queue.py:102-158 | every step - claim, send, report however late, crash, requeue - keeps row shape, counters, ownership by the newest claim and truth of the journal |
| Lanes.RecordMoves | app/queue.py:296-354 | what a report may do to a row: success delivers, failure under the owner's name takes it out of flight, and otherwise only schedule and outcome fields change |
| Protocol.EventKeeps | migrations/001_init.sql:21-84 | every event of the whole service keeps the global invariant: unique keys, unique recipients per lead, referential integrity, every lane sound |
| Protocol.RunKeeps | migrations/001_init.sql:21-84 | hence every reachable state satisfies it |
| History.HistoryOnlyGrows | app/queue.py:235-258 | over any run nothing disappears, a known entry never changes, an unknown one only to what its own claim reported; total_attempts and total_attempts - attempts never fall |
| History.KnownEntryStays | app/queue.py:235-258 | a success or failure entry stays word for word |
| History.SuccessIsAbsorbing | app/queue.py:260-275 | a success reported however late makes the row delivered with a success entry, and the row is not claimed again before a requeue that opts in to delivered rows |
| History.ReportedSuccessDelivers | app/queue.py:307-309 | the single step of it, from any state of the row |
| History.DeliveredStays | app/queue.py:384-390 | without the opt-in a delivered row is not touched by any run |
| History.LeaseIsRespected | app/queue.py:93-98 | a claimed row is not handed out again, requeued or changed before a report on it or the end of its lease |
| History.ClaimsAreBounded | app/queue.py:311-324 | from any state, between requeues and without misjudging failures, claims made plus claims the budget still allows never exceed the budget at the start plus one per lost lease; both counters rise once per claim |
| History.BudgetSpentSettles | app/queue.py:311-324 | so it ends: a delivery claimed that often and not being sent is delivered or failed |
| History.EveryDeliverySettles | app/queue.py:311-324 | in every run, however late its reports, a new delivery is claimed until its first requeue at most retry_max_attempts times plus once per lost lease, and claimed that often and not being sent it is delivered or failed |
| History.FailureIsPaced | app/queue.py:311-324 | a failure of the owner puts the row back with a pause in the jitter band of its place in the schedule, or to failed exactly when the budget is spent |
| History.ReclaimIsLogged | app/queue.py:160-177 | taking over an expired row always adds the placeholder of the lost attempt, from its start to now, under the reclaiming worker; other claims leave the journal alone |
| History.FailureMovesTheRow | app/queue.py:277-293 | a failure report changes the row iff it is in flight under the reporting worker's name |
| History.StaleFailure | app/queue.py:277-293 | a failure always counts for the attempt in flight; a stale one is harmless iff the attempt in flight belongs to another worker |
| Waiting.BoundedWaiting | app/queue.py:103-129 | with ties resolved by id, an open row past its time is claimed within (rows ahead + 1) uncontended claims, whatever happens in between, unless a requeue or a report moves it |
| Waiting.BoundedWaitingAnyTies | app/queue.py:103-129 | whatever the ties, it is claimed within (rows due no later + 1) uncontended claims whose window capped rows of the oldest instant cannot fill |
| Waiting.NoLaterShrinks | app/queue.py:114-130 | every such claim removes at least one of the rows due no later |
| Waiting.NobodyOvertakes | app/queue.py:131-137 | no accept, report, reclaim or requeue of another row gets ahead of a row that is already due |
| Waiting.DeedNeverPromotes | migrations/001_init.sql:113-127 | whatever happens to a row, if it stays open it is where it was or not before the clock |
| ClaimQuery.StaleRankingIsSafe | app/queue.py:87-98 | for a ranking on any snapshot and any tie choice a claim hands out only rows due now and unlocked, at most limit, at most max_claims_per_origin per origin |
| Guarantees.StaleClaimIsSafe | app/queue.py:87-98 | the same when any run lies between the ranking and the re-check |
| ClaimQuery.OrderedIsLegal | app/queue.py:102-130 | taking equally old rows in id order is one of the choices the query leaves open |
| ClaimQuery.HeadIsPicked | app/queue.py:102-130 | with ties by id the oldest due row is always in the batch |
| ClaimQuery.WhatIsPicked | app/queue.py:103-129 | a claimed row is open, due and unlocked at the re-check, and the ranking saw fewer than max_claims_per_origin due rows of its origin before it, earlier ones and equally early ones with a smaller id |
| ClaimQuery.WhyNotPicked | app/queue.py:103-129 | a row that was due, unlocked and within its cap is left out only if the batch is full of rows that were due no later, or the window is |
| ClaimRefinement.OldestIsPicked | app/queue.py:106-129 | whatever rows the two LIMITs keep among equally old ones, an uncontended claim takes a row of the oldest instant unless capped rows of that instant can fill its window |
| Waiting.ProgressiveIsEmpty | app/worker.py:93-100 | such a claim, and one with ties by id, is empty iff nothing is due |
| Waiting.EmptyClaimIsPossible | app/queue.py:106-129 | an uncontended claim can come back empty over due rows iff capped rows of the oldest instant can fill its window |
| ClaimQuery.FirstKSize | app/queue.py:111-112 | a LIMIT over an ordered scan keeps min(k, all) rows |
| ClaimRefinement.OnePassIsTheQuery | app/queue.py:103-129 | a single pass over the due rows with one counter per origin picks exactly the rows of the rank, window and limit query |
| ClaimRefinement.QueryIsOnePass | app/queue.py:103-129 | for every table there is such an order, so one pass does the work of the query |
| ClaimRefinement.BatchSize | app/queue.py:184-193 | with ties resolved by id the batch has min(limit, sum over origins of min(cap, rows of the origin in the window)) rows |
| ClaimRefinement.StarvationIsPossible | app/queue.py:106-112 | an uncontended claim can come back empty although rows are due iff the oldest instant has a whole window of rows behind their origin's cap |
| ClaimRefinement.BurstStarves | app/queue.py:394-397 | a burst of equally old rows for one origin can starve iff it has at least limit * multiplier + cap rows |
| Starvation.StarvationIsReachable | app/queue.py:106-112 | for all validated settings and limits such a claim is one accept away from an empty database |
| Starvation.NineAddressesStarve | app/config.py:89-100 | with the shipped settings a lead for nine addresses of one host is enough, for a worker with one free slot |
| Requeue.EverySelectedRowIsCounted | app/queue.py:384-409 | requeued, skipped in flight and skipped delivered add up to the selected rows |
| Requeue.OneLeadSelects | app/queue.py:452-461 | retrying one lead selects its unlocked deliveries, all or the named ones, and no others |
| Requeue.BulkSelects | app/queue.py:481-509 | the same of the statement: status, origin, address and both bounds on the time of acceptance, oldest first up to the cap |
| Requeue.RequeuedRow | app/queue.py:384-404 | a requeued row is due at this very instant with a fresh budget and its history intact; for in-flight rows "may be requeued" and "may be claimed" coincide |
| Store.RequeueEffect | app/queue.py:375-409 | a requeue on the whole table: exactly the counted rows become due now with a fresh budget, live leases and unselected rows are unchanged, each counter is its set of skipped rows |
| Store.Database.ClaimBatch | app/queue.py:180-232 | the claim transaction moves the tables as the claim event does and returns one claim per row: the newest attempt of that delivery, under the next number |
| Store.ReturnClaims | app/queue.py:197-232 | the loop over the claimed rows adds exactly the placeholders of lost attempts and returns the rows' claims in order |
| Store.Database.RecordResult | app/queue.py:296-354 | the recording transaction moves the tables as the report event does |
| Store.Database.RequeueSelected | app/queue.py:375-409 | the requeue statement: new table, outcome and event agree |
| Store.Database.RequeueRequest | app/queue.py:440-468 | None iff the lead is unknown, and then nothing changes; otherwise a requeue of exactly its unlocked deliveries, or of those named by address or label; the rows of every other lead stay as they are |
| Store.Database.RequeueBulk | app/queue.py:471-509 | the filtered requeue, opted in to delivered rows: every selected row meets each clause of the filter, as many rows as the cap allows are taken, and no matching older row is left out for a younger one |
| Store.Database.AcceptRequest | app/intake.py:73-110 | accepting moves the tables as the event does; a repeat reports the original lead, its time and its recipients and changes no table |
| Store.Database.AttachRecipients | app/intake.py:113-140 | None iff the lead is unknown; added and already_present are the addresses that were missing and those that were there, and the ids returned are the new deliveries |
| Store.DedupeRecipients | app/intake.py:46-55 | the loop with its set of seen addresses is first-mention deduplication |
| Store.InsertAll | app/intake.py:58-70 | the conflict-checked insert: tables, returned ids and state machine agree, each returned id names one new row |
| Intake.IntakeIsFirstWriteWins | app/intake.py:73-140 | over any run the tables refine a book in which the first accept of a key writes, attaches add addresses, and nothing else counts |
| Intake.DedupeIsFirstMention | app/intake.py:46-55 | deduplication keeps every address, each once, each as first mentioned |
| Intake.NewDeliveryIsFirstMention | app/intake.py:37-43 | a new delivery has the name and origin of the first mention of its address, is due at once and has no history |
| Intake.EachAddressOnce | migrations/001_init.sql:83-84 | a lead has as many deliveries as addresses |
| Intake.AttachCounts | app/intake.py:133-140 | the two counters of an attach, as sets of addresses |
| Worker.Worker.Tick | app/worker.py:79-100 | never more tasks than slots; it waits iff no slot is free and else asks for as many rows as are free, at least one and no more than the batch size; the new tasks are exactly the claims the worker newly holds; it sleeps iff the claim was empty, and iff nothing was due unless capped ties can fill its window |
| Worker.Worker.Spawn | app/worker.py:90-107 | one task per claim |
| Worker.Worker.TaskDone | app/worker.py:107 | a running task that finishes frees one slot, any other call none |
| Worker.Worker.Drain | app/worker.py:147-174 | shutdown touches no table, it only abandons the claims that did not finish |
| Worker.TasksStayOwned | app/worker.py:102-107 | a running task stays the holder of its claim whatever the rest of the service does |
| Worker.BatchJoins | app/worker.py:87-91 | a batch adds one distinct task per claim to those running |
| Worker.BurstDrains | app/worker.py:93-100 | a burst for one recipient shrinks by min(limit, cap) per round, for any limits the free slots allow, and no round is empty before it is gone, with ties by id or a window that holds the burst |
| Worker.RoundsNeverIdle | app/worker.py:93-100 | over any run whose claims are not blocked by capped ties no claim comes back empty while anything is due |
| Retry.DelaysNeverDecrease | app/retry.py:30-39 | delays are positive, never decrease and never exceed the cap |
| Retry.CapIsReached | app/retry.py:37-39 | with a factor above one the cap is in force from a computable index on |
| Retry.WindowClosedForm | app/retry.py:56-58 | the retry window is a geometric sum up to the cap plus a linear tail, for every number of attempts |
| Retry.FlatWindow | app/retry.py:56-58 | with factor one it is linear |
| Retry.DefaultsSurviveADay | app/config.py:57-64 | the shipped schedule spans 87915 seconds, more than a day |
| Retry.JitterBand | app/retry.py:42-48 | a jittered delay stays within (1 - jitter) and (1 + jitter) of the delay, apart from the floor |
| Retry.BandIsReached | app/retry.py:42-48 | and every pause of that band above the floor is drawn, by exactly one draw |
| Retry.JitterCannotCollapseTheWindow | app/retry.py:42-58 | whatever is drawn, the jittered schedule spans at least (1 - jitter) of the window |
| Config.ValidateInvariants | app/config.py:127-163 | accepts iff the four invariants hold; otherwise reports exactly the violated ones, each once |
| Config.ShippedMargins | app/config.py:29-100 | the shipped settings are valid, an attempt takes at most half its lease, a batch half the slots, and one host at most a quarter of a batch |
| Sender.ClassifyStatus | app/sender.py:41-51 | counts as delivered iff the status is 2xx; which statuses carry which error kind, anything outside 200..499 being a server error |
| Reporting.StateOfRows | app/reporting.py:50-59 | the state of a report that lists every row of a lead is what those rows say, each of the five answers iff its case holds |
| Reporting.GetRequestStatus | app/reporting.py:62-129 | None iff the lead is unknown; otherwise every delivery once with its own fields, each with its complete journal in attempt order, and a state that fits the rows of the lead: none there, one still open, all delivered, all failed, or both kinds with nothing open, each iff |
| Reporting.GroupAttempts | app/reporting.py:76-92 | the grouping loop yields for each delivery its rows in the order read |
| Reporting.GroupIsLog | app/reporting.py:41-47 | the journal read by its own copy of the lead id and grouped by delivery is the whole journal of each delivery |
| Reporting.CountsMatchTheList | app/reporting.py:199-217 | on one snapshot the join-free counts equal the joined list, per category and in total, in every reachable state |
| Reporting.CounterMoves | app/reporting.py:206-217 | which events move a counter, and that no others do: a new lead without recipients or the first recipients of one; a report that gives up or succeeds; a manual retry of a settled row |
| Reporting.CountsMatchTheNextSnapshot | app/reporting.py:230-239 | read by two statements they still agree on a category if no event in between moves its counter |
| Reporting.CountsAcrossOneEvent | app/reporting.py:230-239 | with one event in between they agree iff it does not move the counter |
| Reporting.ListedButNotCounted | app/reporting.py:233-235 | a lead accepted between the two statements can be on the list and not in the counts |
| Reporting.WhatIsListed | app/reporting.py:142-186 | the list holds exactly the leads without deliveries, the failed rows and the rows still open past the cutoff, each under its reason and since the right time: accepted, given up, created |
| Reporting.OldestFirst | app/reporting.py:188-197 | the list runs oldest trouble first, equally old rows by lead |
| Reporting.AbsentMeansDelivered | app/reporting.py:142-186 | past the cutoff a lead is missing from the list iff its state is delivered |
| Reporting.PagesRebuildTheList | app/reporting.py:188-197 | without ties consecutive pages rebuild the list in order, though each is a query of its own |
| Reporting.PagingIsComplete | app/reporting.py:188-197 | for every page size and enough pages: whatever order each query gives to ties, no problem is missed iff no page boundary runs between two rows with equal keys |
| Reporting.PagesAddUp | app/reporting.py:188-197 | pages together always show as many rows as there are problems, so a missed one means another is shown twice |
| Reporting.SiblingsTie | app/reporting.py:175-180 | in every later state in which two recipients added together are stalled, both are on the list with equal keys |
| Reporting.ColumnsAddUp | app/reporting.py:288-298 | delivered + queued + failed = total; attempts are the failed ones, those of unknown outcome included, and the successes |
| Reporting.WhatStatsCount | app/reporting.py:298-313 | the other counters are the leads accepted in the period, those of them without deliveries, the attempts started in it, and those of them that are no success |
| Reporting.WhatColumnsCount | app/reporting.py:290-303 | the columns are the deliveries, by status, whose lead was accepted from the start of the period on and before its end |
| Reporting.PeriodsAdd | app/reporting.py:296-313 | all counters add up over adjacent half-open periods |
| Reporting.StatsMatchProblems | app/reporting.py:306-320 | over a period covering every lead the counters count every row, and failed and without-recipients equal the problem counts |

## Left out

- WireExclusion: assumes prompt sends and no overriding report, neither of which the code enforces; both are the exact limits (`LateSendIsTheLimit`, `OverrideIsTheLimit`).
- LateSendIsTheLimit: speaks of the newest claim; in a safe state a send of an older one is never prompt.
- RowAndJournalAgree: excludes the reports that break it (`BudgetExact`, `LastEntryExact`).
- ClaimsAreBounded: excludes misjudging failures, which can leave a row pending without budget; for a new delivery `EveryDeliverySettles` needs no such assumption.
- BoundedWaiting: counts only uncontended claims with ties resolved by id; `BoundedWaitingAnyTies` is the bound without that.
- BoundedWaitingAnyTies: does not count claims whose window capped rows of the oldest instant can fill, because such a claim may take nothing (`EmptyClaimIsPossible`).
- PagesRebuildTheList: the order of the pages is promised only for a list without ties; completeness is `PagingIsComplete`.
- BurstDrains: rounds at one instant with nothing else in between; `RoundsNeverIdle` holds whatever lies between the claims.
- CountsMatchTheList: one snapshot; the two statements of the code are `CountsAcrossOneEvent` and `CountsMatchTheNextSnapshot`.
- Store.Database.RecordResult: a claim is recorded at most once, as the worker does; calling it twice for one claim is not modelled.
- SelectsDeliveries: rows created together may come in any order; the collation of URLs is not modelled.
- PostgreSQL itself: a transaction is one atomic step at one clock value, except that the ranking of a claim may see any earlier table and that locked rows are skipped; MVCC, planning and indexes are not modelled. Set-based statements are functions over the table.
- HTTP, FastAPI and pydantic: routes, request bodies, field validation and error texts.
- URL parsing: the origin of a recipient is a label that comes with the recipient.
- `LIKE` patterns: a bulk filter names the set of URLs its pattern accepts.
- Response excerpts, `last_error`, `duration_ms`, `updated_at` and logging, which decide nothing.
- Floating point: delays and times are real numbers; rounding, overflow and `schedule_preview` are left out. The random generator is a draw in [-spread, spread].
- Generated ids and worker names: assumed unique.
- The worker's outer loop, its poll interval and its grace period: `Tick` and `Drain` are single passes and time is an event of its own.
- Different settings for different workers: one validated set of settings per run.
- The age column of the problem list, `generated_at`, and the unused settings.
- The migrations runner, the recipient stub and the demo and mutation scripts.
