# LogiFlow: order lifecycle, its background workers and Dispatch ranking

A Dafny model of the transactional core of a freight service and of the machinery that reacts to
it. Customers submit orders; managers offer them to drivers with vehicles; drivers accept, start,
hand over, arrive and complete; warehouses receive, load and unload; incidents stop the process
until somebody decides. Around it run an expiry worker, a queue of released reservations, an outbox,
an inbox, a document service and the ranking of drivers and vehicles.

Check it with `dafny verify dfyconfig.toml`.

## How it is laid out

- **State and commands.** `Model` holds the rows, `Eligibility` the resource check, `Trips` one
  decision function per command over the rows of one order, `Database` the tables and how one
  order's rows are read and written back, `Core` the state machine: one event is one committed or
  rolled-back transaction. Constraints of the schema (exclusion of overlapping windows, partial
  unique indexes, unique keys of the journal) are guards of the insert steps.
- **The service.** `OrderService` is the class that changes the tables row by row the way the
  commands do; each method is proved to leave exactly the tables, and give exactly the reply, that
  `Core` prescribes, so that what is proved of the state machine is proved of the class. `RowWrites`
  holds the lemmas that connect writes of single rows with the rows of an order.
- **Invariants.** `Soundness` states what every reachable order looks like; `Frames`,
  `Preservation`, `RecordKeeping` and `Verdicts` show command by command that it is kept;
  `CoreSafety` lifts this to the whole database (and `InitialHolds` to the empty one); `Guarantees`
  draws the conclusions about runs; `Effects` goes through the commands once more for what none of
  them does.
- **Rights and transitions.** `Permissions` lists each command's conditions on the rows themselves and
  proves that it succeeds exactly under them; `Conduct` lists every transition of every kind of row,
  with who may make it and what else changes, and proves that every step of every command is one of
  these.
- **Consequences.** `Resubmission`, `Failures`, `Cargo`, `CustodyReport`, `WarehouseQueue`, `Loads`;
  `Scripts` and the runs written out with it, `StrandedRun`, `UncountedRun` and `SameSiteRun`.
- **Background.** `Paging` (keyset pages), `Expiry`, `Release`, `Outbox`, `Recommendations`,
  `Documents`.
- **Dispatch.** `Ranking`, `DispatchEligibility`.
- **Locks.** The commands as lock scripts, and any number of them at once.

Results about runs hold from any state that satisfies the invariant. The empty database does
(`InitialHolds`), and `ScriptRuns` is a legal run of eight successful commands from it, so none of
them is empty.

## What the proofs found

- **Submitting an assigned order.** `SubmitOrder` asks only whether the status graph has an edge to
  `ready_for_dispatch`, and the graph has one from `assigned` (for releasing an assignment). A
  second submission of an assigned order therefore succeeds and leaves it ready while a driver still
  holds an accepted assignment, a state the lifecycle in `docs/ai/domain.md` does not provide for.
  `CouplingBreaksExactly` shows it is the only step that breaks the coupling of orders and
  assignments, and `CoupledUnlessResubmitted` that all is well in runs without it;
  `SubmissionSucceeds` says exactly which submissions those are. If the cargo was loaded, the order
  is stuck for ever (`StrandedForever`), while the warehouse queue goes on showing
  `ready_to_depart`; this is the only disagreement of queue and start guard at the origin
  (`StartDisagreesOnStranded`).
- **Cargo from no warehouse to a warehouse.** The count at unloading is then compared with nothing
  and becomes the count the receipt is compared with, so the incidents of such an order always sum to
  zero, whatever was declared: the account closes only if nothing was missing
  (`AccountClosesExactly`; `ShortDeliveryUnnoticed` is a run where it does not).
- **Origin and destination the same warehouse.** The queue shows `departed` where it would show
  `awaiting_unloading` (`UnloadAgrees`, `StageMissesUnloading`).
- **The last day of a licence.** Dispatch compares dates, Core instants; the two differ exactly when
  the window ends at the midnight that closes the last valid day (`DateTestIsTighter`).
- **The caps of thirty.** The one on drivers loses no score. The one on vehicles, which goes by
  capacity in kilograms, can lose the best pair (`VehicleCapLosesTheBest`); it is harmless exactly
  when every feasible pair it cuts off is beaten by five that are kept (`VehicleCapExactly`), as it is
  whenever no more than thirty vehicles are admitted.
- **Recommendations of one instant.** The stored row depends on the order of delivery exactly when two
  newest results have the same `requested_at` (`OrderMattersExactly`).
- **An order without `submitted_at`.** The row of such an order, whatever its status, cannot be read
  into the variable the handler uses, so the transaction fails and the message is delivered again
  (`StoreDispatchRecommended`). Results are asked for after submission, which sets the column.
- **Lock order.** Two commands lock the assignment named in the request before they check that it
  belongs to the order they hold (`internal/services/warehouse_flow.go`,
  `internal/services/delivery_receipts.go`). The argument that children are locked under their
  order therefore covers handover and incident rows only; assignment rows are covered by their
  place in the order of tables.

## Conventions

Identifiers are natural numbers, in the order of the textual form of the source's UUIDs. Instants
are integers; the clock of a run increases strictly between committed steps, except that expiries of
one sweep may share an instant. Capacities, weights, ratings and scores are `real`; the rounding of
a score to cents, half to even, is modelled. A registry of drivers, vehicles, their papers and
shifts, of warehouses and of counterparties comes with every event, so that it may change arbitrarily between
commands. Batch sizes are arbitrary.

## Model

| member | source | states |
|---|---|---|
| CoreSafety.StepKeeps | internal/services/assignment.go:21-782 | every command and every background step, failed or not, keeps the whole invariant: reservations, coupling, stamps, journal, cargo accounts, custody chain, status log, release records |
| Guarantees.ReservationsAndCoupling | migrations/20260916090000_core_order_lifecycle.sql:63-77 | after any run no two open assignments share a driver or vehicle on overlapping half-open windows, each order has at most one open assignment, and its status fixes which; the one exception is a ready order whose log holds a resubmission |
| Resubmission.CouplingBreaksExactly | internal/services/assignment.go:43-73 | from a coupling as designed, whatever happened before, a step breaks it if and only if it submits an assigned order whose actor, address, cargo, window, price, route and details are in order |
| Resubmission.OrderBreaksExactly | internal/services/assignment.go:43-73 | the same for one order, whatever state the others are in: its coupling ends if and only if this order is resubmitted |
| Resubmission.LogsStayClear | internal/services/assignment.go:928-939 | no other step writes a change from assigned to ready without a reason into any log |
| Resubmission.CoupledUnlessResubmitted | internal/services/assignment.go:43-73 | a run without such a submission keeps every order coupled as designed: draft none, ready at most one pending and no driver, assigned one accepted, in transit and arrived one active, terminal none open |
| Resubmission.SubmissionStrands | internal/services/assignment.go:43-73 | resubmitting an assigned order whose cargo is loaded leaves it ready with an accepted, loaded assignment |
| Resubmission.StrandedForever | internal/services/assignment.go:309-327 | no later run moves such an order: start, unload, undo, cancel, return and replacement are all refused for good |
| StrandedRun.ScriptRuns | internal/services/assignment.go:21-92 | an explicit run of eight successful commands from the empty database reaches such an order |
| StrandedRun.LoadedOrderCanBeStranded | internal/services/assignment.go:21-92 | that run, continued by anything at all, still ends with the order stranded |
| Guarantees.RunGrows | internal/services/assignment.go:928-939 | along any run rows are never lost, a closed assignment or incident never changes again, operations and receipts are immutable, and each log only grows at its end |
| Guarantees.OtherOrdersStay | internal/services/assignment.go:784-842 | a command changes the rows of the order it names and leaves every other order exactly as it was |
| Guarantees.LogReplays | internal/models/order.go:47-62 | after any run the log of every order is a connected path of allowed edges from draft to its current status, and extends the log it had before |
| Guarantees.CompletedForever | internal/models/order.go:59-62 | nothing about a completed order but its invitations ever changes: row, log, assignments, operations, incidents, receipt |
| Guarantees.CancelledForever | internal/models/order.go:59-62 | the row, log and assignments of a cancelled order never change |
| Guarantees.DeliveredRests | internal/services/assignment.go:667-699 | two sound states of a completed order joined by a step agree on everything but invitations |
| Guarantees.CompletedOrdersProven | internal/services/assignment.go:667-699 | every completed order of any run has no open incident, an effective load if it left a warehouse, an unload by the delivering assignment if it ended in one, and under policy 1 a receipt naming that assignment |
| Guarantees.ReceiptNamesCarrier | internal/services/assignment.go:691-699 | in every sound state the receipt names the active assignment, so the stale-receipt branch of completion is dead |
| Guarantees.ReleasesConserved | internal/services/dispatch.go:95-100 | after any run the closed assignments are the disjoint union of the queued and the processed release records; none is lost, repeated or taken back, and each record holds its assignment's window |
| Guarantees.StepQueuesWhatItCloses | internal/services/assignment_expiry.go:113-128 | one step queues exactly the assignments it closes, whichever closing path it took |
| Failures.FailuresRollBack | internal/services/assignment.go:452-459 | in every reachable state a command that answers with an error leaves the tables as they were, except that a late accept expires exactly that offer and queues its release, and a late answer expires exactly that invitation |
| Cargo.CargoAccounted | internal/services/incidents.go:252-284 | for every completed policy-1 order of any run: the quantity incidents of its receive, load, unload and receipt sum to declared minus received, or to zero if it came from no warehouse to one; each was settled by accept_discrepancy |
| Cargo.AccountFromOrigin | internal/services/delivery_receipts.go:88-127 | with an origin warehouse the differences telescope through the one effective load |
| Cargo.AccountFromNowhere | internal/services/delivery_receipts.go:88-127 | without an origin the incidents sum to declared minus received if there is no destination warehouse, and to zero if there is one |
| Cargo.AccountClosesExactly | internal/services/incidents.go:252-284 | in every run the account of a completed policy-1 order closes if and only if it has an origin warehouse, or no destination warehouse, or declared equals received |
| UncountedRun.ScriptRuns | internal/services/delivery_receipts.go:88-127 | an explicit run of ten successful commands from the empty database |
| UncountedRun.ShortDeliveryUnnoticed | internal/services/incidents.go:252-284 | it ends with a completed policy-1 order of which twenty packages were declared and fifteen received, with no incident at all |
| Cargo.UnloadUnquestioned | internal/services/incidents.go:252-284 | why: without an origin any two counts are equally accepted at unloading, and neither raises an incident |
| CustodyReport.ChainInEveryRun | internal/services/handover.go:215-252 | in every run the started assignments of an order are one chain: first leg from the order's start, each leg released the instant of the completed handover that starts the next, last leg active or completed at delivery; sorting by start and id yields it |
| CustodyReport.ServiceReport | internal/services/assignment.go:758-774 | the loop writes one leg per listed assignment, its end the completion or else the release |
| CustodyReport.ListingIsTheChain | internal/services/assignment.go:758-760 | an ordering of the started assignments by (started_at, id) can only be the chain |
| CustodyReport.ReportIsSeamless | internal/services/assignment.go:761-774 | consecutive legs of a completed order's report meet at a handover between those two assignments |
| CustodyReport.CustodyTilesTheTrip | internal/services/handover.go:215-252 | in every run the report of a completed order covers start to delivery without gap or overlap: the durations add up to the trip |
| Conduct.EveryStepIsLawful | internal/services/assignment.go:21-782 | in every state, whatever the command: each assignment, handover, journal row, receipt, incident, order and log that changes does so by one of the listed transitions, with the actor, the conditions and the other rows that go with it |
| Conduct.DoneAsAsked | internal/services/assignment.go:21-782 | in every state a command that succeeds has made the change it names, with the values it was given, and left the other assignments or handovers alone |
| Conduct.HandoverNeedsBoth | internal/services/handover.go:189-196 | only the driver who leaves can confirm a handover, only the driver invited can complete it, and only after that and in time |
| Conduct.CrewsAreSuited | internal/services/assignment.go:859-926 | every pair newly offered, newly accepted or newly on the road is available, licensed, registered, large enough and on shift for the whole window |
| Conduct.OrdersAppearAsAsked | internal/services/order.go:156-180 | an order appears only by a creation that may create it, as a draft with what was asked for and no rows of its own |
| Permissions.CommandsSucceedExactly | internal/services/assignment.go:21-782 | in every state each command succeeds if and only if its actor, the rows it reads, the resources and the constraints are as listed for it, whichever order its checks come in |
| Permissions.NoObjectionExactly | internal/services/assignment.go:859-926 | the resource check has no objection if and only if both are available, a licence or expiry date and a registration reach the end of the window, weight and volume are each within capacity, and a shift covers the window if there are shifts |
| Permissions.ObjectionIsTrue | internal/services/assignment.go:859-926 | and the error it gives names something that is wrong with the pair |
| Permissions.AnswerExactly | internal/services/handover.go:158-287 | calling off, confirming and taking over a handover succeed if and only if the listed conditions hold |
| Permissions.OfferExactly | internal/services/assignment.go:213-429 | so does an offer, replacements and recommendations included |
| Permissions.OperateExactly | internal/services/warehouse_flow.go:47-167 | and a warehouse operation of each kind |
| CoreSafety.CreateKeeps | internal/services/order.go:156-212 | a new draft joins the database without touching the invariant: no rows of its own, nothing submitted, assigned or stamped |
| Effects.OrdersStayFit | internal/services/order.go:101-105 | what creation checks and editing rechecks holds of every order in every run: no negative weight or volume, no empty window, a price, an address or a warehouse to go to |
| Trips.PartiesAccepted | internal/services/transport_details.go:50-76 | the three checks in order of identifier pass if and only if sender, recipient and carrier are each known, usable by this user and active, and the carrier is no private person |
| OrderService.OrderService.CheckParties | internal/services/transport_details.go:50-76 | the loop over the sorted counterparties, looking each up once, gives the first objection in that order |
| Resubmission.SubmissionSucceeds | internal/services/assignment.go:33-61 | a submission succeeds if and only if the order is a draft or assigned and its actor, address, cargo, window, price, route and details are in order |
| OrderService.OrderService.UpdateDraftOrder | internal/services/order.go:335-402 | only an own draft, with what the request names changed and checked as a whole, on the stored route; the tables afterwards and the reply are those of the order-level decision on the old tables, over all inputs |
| OrderService.OrderService.SetTransportDetails | internal/services/transport_details.go:17-89 | the three counterparties are checked, and the declared count is written to drafts only; the tables afterwards and the reply are those of the order-level decision on the old tables, over all inputs |
| OrderService.OrderService.SubmitOrder | internal/services/assignment.go:21-92 | checks and effects of submission, including the missing check on assigned orders; the tables afterwards and the reply are those of the order-level decision on the old tables, over all inputs |
| OrderService.OrderService.CancelOrder | internal/services/assignment.go:94-211 | refused once cargo is loaded; otherwise the open assignment is released and queued; the tables afterwards and the reply are those of the order-level decision on the old tables, over all inputs |
| OrderService.OrderService.CreateAssignment | internal/services/assignment.go:213-429 | offer or replacement: resources, recommendation, both exclusion constraints and the unique index, with the replaced assignment released first; the tables afterwards and the reply are those of the order-level decision on the old tables, over all inputs |
| OrderService.OrderService.AcceptAssignment | internal/services/assignment.go:431-499 | accept, or expire a late offer and report it; the tables afterwards and the reply are those of the order-level decision on the old tables, over all inputs |
| OrderService.OrderService.RejectAssignment | internal/services/assignment.go:501-540 | the pending offer closes and is queued; the tables afterwards and the reply are those of the order-level decision on the old tables, over all inputs |
| OrderService.OrderService.ExpireAssignment | internal/services/assignment_expiry.go:95-128 | a due pending offer expires and is queued; anything else is left alone; the tables afterwards and the reply are those of the order-level decision on the old tables, over all inputs |
| OrderService.OrderService.StartAssignment | internal/services/assignment.go:542-596 | needs a load if there is an origin and no open incident; the tables afterwards and the reply are those of the order-level decision on the old tables, over all inputs |
| OrderService.OrderService.ArriveAssignment | internal/services/assignment.go:598-636 | active and in transit only; the tables afterwards and the reply are those of the order-level decision on the old tables, over all inputs |
| OrderService.OrderService.CompleteAssignment | internal/services/assignment.go:638-782 | unload, receipt and incident guards, stamps, release record; the tables afterwards and the reply are those of the order-level decision on the old tables, over all inputs |
| OrderService.OrderService.CheckOperation | internal/services/warehouse_flow.go:47-139 | the objection the guards of an operation raise, in their order, or none |
| OrderService.OrderService.CreateWarehouseOperation | internal/services/warehouse_flow.go:41-212 | journal row, its discrepancy incident, and for undo_load the released assignment; the tables afterwards and the reply are those of the order-level decision on the old tables, over all inputs |
| OrderService.OrderService.ServingRow | internal/services/incidents.go:84-110 | the accepted or active assignment if there is one; agrees with the definition the invariants use |
| OrderService.OrderService.CreateOrderIncident | internal/services/incidents.go:69-150 | who may report what, in which status, and the row written; the tables afterwards and the reply are those of the order-level decision on the old tables, over all inputs |
| OrderService.OrderService.SettledBy | internal/services/incidents.go:199-236 | which resolution settles which kind of incident, replaced vehicle and unload included; agrees with the definition the invariants use |
| OrderService.OrderService.ResolveOrderIncident | internal/services/incidents.go:159-250 | an open incident closes once, by the responsible manager or an admin; the tables afterwards and the reply are those of the order-level decision on the old tables, over all inputs |
| OrderService.OrderService.CreateDeliveryReceipt | internal/services/delivery_receipts.go:25-137 | one receipt per order, by the carrier of an arrived order, with its discrepancy incident; the tables afterwards and the reply are those of the order-level decision on the old tables, over all inputs |
| OrderService.OrderService.CarryingRow | internal/services/handover.go:88-96 | the active assignment if there is one; agrees with the definition the invariants use |
| OrderService.OrderService.CreateTripHandover | internal/services/handover.go:70-133 | lapsed invitations expire first; one pending invitation an order; the tables afterwards and the reply are those of the order-level decision on the old tables, over all inputs |
| OrderService.OrderService.UpdateTripHandover | internal/services/handover.go:158-287 | accept transfers the active assignment in one step, the other answers close the invitation, a late one expires it; the tables afterwards and the reply are those of the order-level decision on the old tables, over all inputs |
| OrderService.OrderService.Handle | internal/services/assignment.go:21-782 | the service takes exactly the step of the state machine and keeps its invariant, so all results about runs hold of it |
| OrderService.OrderService.ExpireAssignments | internal/services/assignment_expiry.go:86-93 | the loop stops at the first failure, having run a prefix of the expiries as a legal run |
| Eligibility.ValidateAssignmentResources | internal/services/assignment.go:859-926 | the three flag loops decide licence, shift and registration as the existential conditions say, first objection first |
| RowWrites.LatestLoadRow | internal/services/incidents.go:265-271 | the scan returns the count of the newest load that no undo lifted, or none |
| RowWrites.ExpectedCount | internal/services/incidents.go:252-284 | which earlier count each kind of operation is compared with |
| Loads.ExistsMeansEffective | internal/services/incidents.go:31-35 | the correlated sub-query finds a load of the assignment exactly when it is not undone |
| Loads.FormulationsAgree | internal/services/incidents.go:265-271 | the two NOT EXISTS formulations select the same loads |
| Loads.LoadsInEveryRun | internal/services/delivery_receipts.go:104-104 | in every run an order has at most one effective load, before departure it is the accepted assignment's, and for that assignment a raw load row is an effective one |
| WarehouseQueue.CountOpen | internal/services/warehouse_flow.go:273-280 | the loop counts each order's open incidents |
| WarehouseQueue.FoldJournal | internal/services/warehouse_flow.go:281-298 | the loop over the journal yields the kinds seen, the loads and the undone loads of every order |
| WarehouseQueue.AnyLoadStands | internal/services/warehouse_flow.go:310-315 | the flag loop: some load is not undone |
| WarehouseQueue.StageFromFold | internal/services/warehouse_flow.go:299-341 | the branches, first match first, on what the maps hold |
| WarehouseQueue.FoldIsStage | internal/services/warehouse_flow.go:247-341 | for an order on the page, what the branches compute from the maps is the stage its own rows define |
| WarehouseQueue.ListWarehouseQueue | internal/services/warehouse_flow.go:221-343 | each item of the page carries its order's stage and number of open incidents |
| WarehouseQueue.StagesMean | internal/services/warehouse_flow.go:299-341 | each of the thirteen stages if and only if what it stands for holds of the order's status and journal |
| WarehouseQueue.HiddenIsDone | internal/services/warehouse_flow.go:247-255 | the default filter hides exactly closed and returned orders |
| WarehouseQueue.StartAgrees | internal/services/assignment.go:558-568 | at the origin of an assigned order, ready_to_depart if and only if its driver may start |
| WarehouseQueue.StartDisagreesOnStranded | internal/services/assignment.go:558-568 | stage and start guard disagree exactly on ready orders that are loaded with no open incident |
| WarehouseQueue.LoadedReadyIsStranded | internal/services/warehouse_flow.go:310-318 | a loaded ready order has been resubmitted and is stranded |
| WarehouseQueue.ReceiveAgrees | internal/services/warehouse_flow.go:91-99 | awaiting_receipt of a submitted order if and only if receive of a positive count is enabled and nothing is open |
| WarehouseQueue.LoadAgrees | internal/services/warehouse_flow.go:108-128 | awaiting_loading if and only if load of a positive count is enabled |
| WarehouseQueue.ReturnAgrees | internal/services/warehouse_flow.go:99-107 | awaiting_return if and only if return_to_sender is enabled and nothing is open |
| WarehouseQueue.UnloadAgrees | internal/services/warehouse_flow.go:138-140 | at a destination other than the origin awaiting_unloading if and only if unload is enabled and nothing is open; where one warehouse is both the stage still reads departed |
| SameSiteRun.StageMissesUnloading | internal/services/warehouse_flow.go:302-323 | a run of nine commands to an order back at its own warehouse that may be unloaded while the queue shows it departed |
| WarehouseQueue.QueueAnnouncesCommands | internal/services/warehouse_flow.go:247-341 | all of these at the origin, in every run, stranded orders the only exception |
| Paging.SelectPage | internal/services/assignment_expiry.go:56-64 | the keyset query as a loop: the first B keys beyond the cursor, in order, none skipped |
| Paging.PageIsNext | internal/services/assignment_expiry.go:56-64 | a page beyond the first n elements is the next stretch of the whole ordering even if those n have left the table |
| Expiry.ExpiryWorker.Sweep | internal/services/assignment_expiry.go:52-79 | the loop takes the sweep step: page, attempts, cursor, whatever was busy or cut short |
| Expiry.SweepAdvances | internal/services/assignment_expiry.go:52-79 | a sweep tries the next stretch of the due offers and ends the pass exactly when its page is short and uninterrupted |
| Expiry.FairSweeps | internal/services/assignment_expiry.go:52-79 | floor(N/B)+1 sweeps from a nil cursor try each of N due offers exactly once and bring the cursor back to nil, and no fewer do, against any choice of busy offers |
| Expiry.OverdueOffersExpire | internal/services/assignment_expiry.go:52-79 | after floor(N/B)+1 sweeps over N overdue offers, each that was never busy and whose driver and vehicle are known is expired, and every other row is as it was |
| Effects.StepAddsNoOverdue | internal/services/assignment.go:395-410 | an offer waiting after any command with its time up by then was waiting before it |
| Expiry.FairAmongOthers | internal/services/assignment_expiry.go:52-79 | with a moving clock and any commands of others between sweeps, floor(N/B)+1 sweeps from a nil cursor try every one of the N offers due at the start that is not closed by then |
| Expiry.InterruptedSweeps | internal/services/assignment_expiry.go:66-79 | however sweeps are interrupted, the offers tried are a prefix of the pass: none skipped, none twice |
| Expiry.FinishedPass | internal/services/assignment_expiry.go:95-128 | after a pass the due offers found free are expired and every other row is as it was |
| Release.FinishedJobReaches | internal/services/dispatch_refresh.go:36-85 | an order eligible at every page of a finished job was asked about, despite crashes and other orders coming and going |
| Release.GoneJobHasReached | internal/services/dispatch_refresh.go:36-85 | after any calls of the worker, on this job and others, failed or not: once the job's row is gone, an order eligible whenever its pages were taken was asked about, and that request or a newer one stands in the outbox |
| Release.FreedOrdersAreAsked | internal/services/dispatch_refresh.go:54-66 | for the closed assignment of a queued job: once the job is gone, its own order and every order whose pickup window the assignment stood in have been asked about, if they were ready, submitted and free of open assignments at every page |
| Release.OnlyFreedOrdersAreAsked | internal/services/dispatch_refresh.go:54-66 | and no others: whatever a page adds to the outbox asks about such an order, about its current submission, now |
| Release.QueuedAsReserved | internal/services/dispatch.go:95-100 | the queue holds the order and window of the closed assignment |
| Release.PagesPerJob | internal/services/dispatch_refresh.go:75-80 | with N eligible orders a job is finished by page floor(N/B)+1 and no earlier, having asked about exactly those |
| Release.QueueDrains | internal/services/dispatch_refresh.go:36-85 | every page of any job takes exactly one from the backlog, so the queue is empty after exactly that many pages |
| Release.FreshJobWeighs | internal/services/dispatch_refresh.go:75-80 | a new job weighs floor(N/B)+1 in that backlog |
| Release.RowFollowsProgress | internal/services/dispatch_refresh.go:75-80 | the stored row and the account of progress move together |
| Release.AskForAll | internal/services/dispatch_refresh.go:70-74 | after the loop every order of the page has an unsent request no older than now |
| Release.ReleaseWorker.ProcessDispatchRelease | internal/services/dispatch_refresh.go:36-85 | one page of the oldest unlocked job, its requests and its cursor together or not at all |
| Outbox.EnqueueDispatchRequest | internal/services/dispatch.go:78-91 | the request is built from the order and upserted |
| Outbox.UpsertSound | internal/services/dispatch.go:78-91 | one unsent row an order, row id equal to payload event id, sent rows untouched |
| Outbox.UpsertAsks | internal/services/dispatch.go:78-91 | afterwards some unsent row asks about the order at least as recently |
| Outbox.UpsertRecords | internal/services/dispatch.go:78-91 | an earlier request remains answered by an unsent row no older than it |
| Outbox.UpsertReplaces | internal/services/dispatch.go:78-91 | unless the unsent request of the order is newer the new one takes its place, and all other rows are left alone |
| Outbox.UpsertFails | internal/services/dispatch.go:78-91 | it fails if and only if it would insert under an identifier another row has |
| Outbox.WholeBatchesAreMarked | internal/events/worker.go:176-215 | a wholly delivered, committed batch marks its rows and no others, and its messages follow in order of age |
| Outbox.RelayDrains | internal/events/worker.go:176-215 | such a relay takes the oldest min(B, N) off what is pending |
| Outbox.RelaysDrain | internal/events/worker.go:176-215 | k of them leave max(0, N - k*B) |
| Outbox.PublishPending | internal/events/worker.go:176-215 | the loop takes the relay step: the messages that reached the stream before a failure, and marks only if the whole batch and the commit succeed |
| Outbox.StepKeeps | internal/events/worker.go:176-215 | every enqueue and every relay attempt keeps that, and a row is marked only once its message is on the stream |
| Outbox.RunKeeps | internal/events/worker.go:176-215 | so does every run, and sent rows never change |
| Outbox.RequestsSurvive | internal/services/dispatch.go:78-91 | no request is lost: after any run one at least as recent is unsent, or has reached the stream |
| Recommendations.StoreDispatchRecommended | internal/events/dispatch.go:20-77 | inbox, staleness and newest-request tests as one transaction, with its two failures |
| Recommendations.RowsAreEarned | internal/events/dispatch.go:39-76 | whatever becomes of the orders, a stored row is that of a well-formed result delivered while its order was ready and submitted as the result says |
| Recommendations.FollowsNewest | internal/events/dispatch.go:39-76 | while an order stays ready, its row is the newest of the results delivered about its current submission |
| Recommendations.StoreConverges | internal/events/dispatch.go:39-76 | two deliveries of the same results, in any order and with any repetition, leave the same row unless two newest ones are of one instant |
| Recommendations.NeverOlder | internal/events/dispatch.go:58-76 | whatever happens to orders, no stored row gives way to an older request |
| Recommendations.OrderMattersExactly | internal/events/dispatch.go:58-76 | for any store and any set of news, all ways of delivering it leave the same row if and only if no two newest results no older than the stored row share an instant |
| Recommendations.TiesDependOnOrder | internal/events/dispatch.go:58-76 | where two do, each of them is the row after some delivery of that same news |
| Documents.ProcessDeliveryMessage | services/documents/src/document_service/events.py:23-67 | look, insert, commit, acknowledge: the two steps of the machine when no other worker comes between |
| Documents.AddReadyEvent | services/documents/src/document_service/modules/documents/service.py:228-241 | the loop shares the document with everyone but the owner and writes one event per distinct person |
| Documents.PublishReadyEvents | services/documents/src/document_service/events.py:100-120 | the loop over a batch: what reached the stream, and marks only for a whole committed batch |
| Documents.ReceiveDocumentReady | internal/events/worker.go:217-252 | inbox row and notification in one transaction; an unknown user gets none |
| Documents.FoundIsClash | services/documents/src/document_service/modules/documents/operational.py:95-105 | the query of either acceptor finds a row exactly when the unique constraint would refuse the insertion |
| Documents.StepKeeps | services/documents/src/document_service/modules/documents/operational.py:95-117 | racing workers, crashes, redelivery and republication keep the invariant |
| Documents.InsertionTells | services/documents/src/document_service/modules/documents/service.py:228-241 | for either kind of message: after the insertion somebody has an event about the document if and only if they are its user or among its recipients |
| Documents.MessagesAreServed | services/documents/src/document_service/events.py:62-67 | a well-formed message taken up undisturbed ends acknowledged, with its document inserted if and only if there was none of its matter |
| Documents.EventsAreServed | internal/events/worker.go:217-252 | an event taken in for an existing user leaves one notification, and its redelivery changes nothing |
| Documents.WholeBatchesAreMarked | services/documents/src/document_service/events.py:100-120 | rows are marked if and only if their whole batch was delivered and committed |
| Documents.ExactlyOnce | internal/events/worker.go:217-252 | in every run: one document a (reference, type) handled, one ready event for the user and each recipient of the message it was made for and none for others, at most one notification a (document, user), exactly one once acknowledged for an existing user |
| Ranking.SortCandidates | services/dispatch/src/dispatch_service/modules/recommendations/service.py:57-57 | the list in the order (-score, driver, vehicle), nothing lost or added |
| Ranking.RecommendCandidates | services/dispatch/src/dispatch_service/modules/recommendations/service.py:30-66 | the nested loops and the sort return the best five feasible pairs of the cross product |
| Ranking.RankingExactly | services/dispatch/src/dispatch_service/modules/recommendations/service.py:33-66 | five pairs or all there are, each of a driver and a vehicle that takes the cargo, by falling score, driver and vehicle, and nothing left out that would come before one listed |
| Ranking.FitIsEven | services/dispatch/src/dispatch_service/modules/recommendations/service.py:42-48 | weight and volume count alike |
| Ranking.FitRange | services/dispatch/src/dispatch_service/modules/recommendations/service.py:42-48 | an exact fit brings ten, an empty vehicle nothing, any other load something between |
| Ranking.LessSpareWeight | services/dispatch/src/dispatch_service/modules/recommendations/service.py:42-45 | of two vehicles alike in volume the one with less weight to spare fits better, strictly if and only if there is any weight |
| Ranking.LessSpareVolume | services/dispatch/src/dispatch_service/modules/recommendations/service.py:45-47 | and likewise in volume |
| Ranking.ScoreRange | services/dispatch/src/dispatch_service/modules/recommendations/service.py:48-48 | scores run from 0 to 110, both ends reached |
| Ranking.RatingOutweighsFit | services/dispatch/src/dispatch_service/modules/recommendations/service.py:48-48 | more than half a point of rating outweighs any difference in fit |
| Ranking.SnugVehicleFirst | services/dispatch/src/dispatch_service/modules/recommendations/service.py:41-66 | for one driver, of two carrying vehicles that differ only in weight capacity the one with less to spare is ranked first as soon as the difference survives rounding, as it does above a five-hundredth |
| Ranking.CompactVehicleFirst | services/dispatch/src/dispatch_service/modules/recommendations/service.py:41-66 | and likewise in volume |
| Ranking.OrderOfInputsIsIrrelevant | services/dispatch/src/dispatch_service/modules/recommendations/service.py:33-66 | whatever the order of the two lists |
| Ranking.BeatenLeftOut | services/dispatch/src/dispatch_service/modules/recommendations/service.py:57-66 | leaving out candidates that five kept ones beat does not change the best five |
| Ranking.MatchedLeftOut | services/dispatch/src/dispatch_service/modules/recommendations/service.py:57-66 | leaving out candidates whose score five kept ones reach does not change the five scores |
| Ranking.LeftOutExactly | services/dispatch/src/dispatch_service/modules/recommendations/service.py:57-66 | leaving candidates out keeps the best five if and only if each one left out is beaten by five kept |
| Ranking.ScoresLeftOutExactly | services/dispatch/src/dispatch_service/modules/recommendations/service.py:57-66 | and keeps the five scores if and only if five kept ones score at least as much as each one left out |
| Ranking.DriverCapKeepsScores | services/dispatch/src/dispatch_service/modules/recommendations/repository.py:38-39 | cutting the drivers to the best thirty loses none of the five best scores, rounding to cents included |
| Ranking.DriverCapKeepsPairs | services/dispatch/src/dispatch_service/modules/recommendations/repository.py:38-39 | nor any of the five pairs if distinct ratings differ by 0.001 or more |
| Ranking.DriverCapExactly | services/dispatch/src/dispatch_service/modules/recommendations/repository.py:38-39 | and for any ratings if and only if each feasible pair cut off is beaten by five kept |
| Ranking.VehicleCapExactly | services/dispatch/src/dispatch_service/modules/recommendations/repository.py:59-60 | for any drivers, vehicles, cap and cargo, the cap on vehicles keeps the best five pairs, or their scores, if and only if each feasible pair it cuts off is beaten, or matched in score, by five kept |
| Ranking.FewVehiclesAreKept | services/dispatch/src/dispatch_service/modules/recommendations/repository.py:59-60 | it changes nothing when no more vehicles are admitted than the cap |
| Ranking.VehicleCapLosesTheBest | services/dispatch/src/dispatch_service/modules/recommendations/repository.py:59-60 | the cut to the thirty lightest vehicles does lose the best pair, on an explicit fleet |
| DispatchEligibility.DateTestIsTighter | services/dispatch/src/dispatch_service/modules/recommendations/repository.py:18-22 | the date test implies Core's, and differs if and only if the window ends at the midnight after the last valid day |
| DispatchEligibility.AdmissionRefinesCore | services/dispatch/src/dispatch_service/modules/recommendations/repository.py:14-61 | every pair the two queries admit passes Core's resource check and no open assignment overlaps it |
| DispatchEligibility.AdmissionExactly | services/dispatch/src/dispatch_service/modules/recommendations/repository.py:14-61 | a pair is admitted if and only if it is available, large enough, on shift, reserved by nobody in the window, and its papers outlast the window by an instant |
| DispatchEligibility.AdmissionMeetsCore | internal/services/assignment.go:859-926 | unless the window ends at midnight, Dispatch admits exactly the pairs that pass Core's check and are reserved by nobody |
| DispatchEligibility.RecommendedAreAdmitted | services/dispatch/src/dispatch_service/modules/recommendations/service.py:30-66 | caps and ranking recommend only admitted pairs |
| DispatchEligibility.RecommendedCanBeOffered | internal/services/assignment.go:213-429 | so an administrator's offer of a recommended pair on that snapshot succeeds |
| Locks.EveryCommandIsOrdered | internal/services/assignment.go:235-297 | every lock script takes order, assignment, drivers, vehicles, warehouse and the rest in one order, rows of a table by id, child rows aside |
| Locks.EveryCommandIsChaperoned | internal/services/handover.go:171-183 | handover and incident rows are locked only by whoever holds their order |
| Locks.EveryCommandLocksItsRows | internal/services/assignment.go:784-842 | every command locks its order, and every assignment, driver and vehicle whose use it changes or checks |
| Locks.CommandsTakeTurns | internal/services/assignment.go:784-842 | so in no reachable state are two commands that engage the same one of these both through with their locks |
| Locks.NoRankOfAllRows | internal/services/handover.go:87-118 | no total order of all rows fits both handover commands |
| Locks.NobodyWaitsForChildren | internal/services/incidents.go:180-184 | hence nobody ever waits for a child row |
| Locks.NoDeadlock | internal/services/assignment.go:784-842 | in no state reached by any number of concurrent transactions is there a circle of waiting, of any length |
| Locks.SomebodyCanGoOn | internal/services/assignment.go:784-842 | while any transaction is under way, one of them waits for nobody |

## Left out

- HTTP handlers, generated API code, authentication, tokens, metrics and WebSockets: an actor is a role, an id and, for a manager, a warehouse.
- Routing, geocoding and pricing: their outcome is a parameter of creating, editing and submitting an order.
- OrderService.OrderService.SetTransportDetails: keeps the declared count and the policy version; the snapshots of the counterparties, basis and terms are not kept, because no other command reads them.
- OrderService.OrderService.UpdateDraftOrder: keeps that the draft has a price, not the amount, because the amount is a one-line formula that no command compares with anything.
- Lengths of texts: a request carries whether its texts are acceptable.
- Contents of documents and notifications, and who is told by domain commands; `Documents` follows recipients and one notification per ready event.
- The row of the driver to be notified is taken to exist when cargo is loaded or unloaded.
- Identifiers of receipts, which nothing refers to.
- Malformed messages to the document service are acknowledged and set aside at the source, and change nothing here; malformed results of Dispatch are modelled as invalid.
- Reports, dashboard, reference labels and listings other than the warehouse queue; limit and offset of the queue, whose results hold for every page.
- INN check digits and the demo seed.
- Key-share locks taken by foreign keys, and waiting on unique indexes, are not part of the lock scripts.
- Binary rounding of floating point: arithmetic is on reals.
- The cursor and age of release records are kept in `Release`, which follows one job page by page; `Core` records only that a job was finished.
- Ranking.DriverCapKeepsScores: is stated for the rating clamped to 0..5 as the query returns it, whereas the query sorts by the stored rating; the two orders agree on stored ratings between 0 and 5.
- Expiry.FairSweeps: stands the clock still and lets nobody else change offers, for a count that is exact in both directions; Expiry.FairAmongOthers has the bound without that.
- Documents.ProcessDeliveryMessage: is one worker with nobody in between; interleavings are those of the steps in ExactlyOnce.
