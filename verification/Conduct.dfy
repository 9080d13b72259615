// What every change of a row says about who made it, when, and what else changed with it: each
// transition of each kind of row, whichever command took it.
module Conduct {
  import opened Model
  import opened Eligibility
  import opened Trips
  import opened Soundness
  import opened Frames
  import opened Verdicts
  import opened Database
  import opened Core
  import opened CoreSafety
  import opened Guarantees
  import opened Permissions
  import opened Effects
  import RowWrites

  // The worker that closes overdue offers acts for nobody.
  function ActorOf(c: Command): Option<Actor> {
    match c
    case CreateOrder(who, _, _, _) => Some(who)
    case UpdateDraftOrder(who, _, _, _) => Some(who)
    case SetTransportDetails(who, _, _, _, _) => Some(who)
    case SubmitOrder(who, _, _) => Some(who)
    case CancelOrder(who, _, _) => Some(who)
    case CreateAssignment(who, _, _, _, _) => Some(who)
    case AcceptAssignment(who, _) => Some(who)
    case RejectAssignment(who, _) => Some(who)
    case ExpireAssignment(_) => None
    case StartAssignment(who, _) => Some(who)
    case ArriveAssignment(who, _) => Some(who)
    case CompleteAssignment(who, _, _) => Some(who)
    case CreateWarehouseOperation(who, _, _, _, _) => Some(who)
    case CreateOrderIncident(who, _, _, _) => Some(who)
    case ResolveOrderIncident(who, _, _) => Some(who)
    case CreateDeliveryReceipt(who, _, _, _) => Some(who)
    case CreateTripHandover(who, _, _, _) => Some(who)
    case UpdateTripHandover(who, _, _, _) => Some(who)
    case FinishRelease(_) => None
  }

  function SaidBy(c: Command): Option<StatusReason> {
    if c.CancelOrder? && c.reason.Some? then Some(Code(c.reason.value)) else None
  }

  // A change from t to u, made by `actor` at `now`, who gave a reason if `said`.
  datatype Change = Change(t: Trip, u: Trip, actor: Option<Actor>, now: Time, fleet: Registry, said: Option<StatusReason> := None)

  // ---- Handovers ------------------------------------------------------------------------------------

  function HandedLeg(c: Change, g: Handover): Assignment {
    Assignment(c.t.order.id, g.driver, g.vehicle, AssignmentStatus.Active, c.now, g.plannedTo, g.createdBy, c.now, c.now + 15 * MINUTE,
               Some(c.now), None, None, None, Some(c.now), None)
  }

  // The driver who comes accepts what the driver who leaves has confirmed: in one step the one leg
  // ends, the next begins, and the order changes hands.
  ghost predicate TakesOver(c: Change, h: Id) {
    && c.actor.Some? && MayTakeOver(c.t, h, c.actor.value, c.now, c.fleet) && h in c.u.handovers
    && var g, y := c.t.handovers[h], c.u.handovers[h];
       && y.next.Some? && y == g.(status := HandoverCompleted, completedAt := Some(c.now), next := y.next)
       && y.next.value !in c.t.assignments && y.next.value in c.u.assignments
       && c.u.assignments[y.next.value] == HandedLeg(c, g)
       && g.previous in c.u.assignments
       && c.u.assignments[g.previous] == c.t.assignments[g.previous].(
            status := Released, releasedAt := Some(c.now), releaseReason := Some(InTransitHandover))
       && c.u.order == c.t.order.(driver := Some(g.driver))
  }

  ghost predicate HandoverMoves(c: Change, h: Id)
    requires h in c.t.handovers && h in c.u.handovers
  {
    var g, y := c.t.handovers[h], c.u.handovers[h];
    match y.status
    case HandoverPending =>
      c.actor.Some? && MayConfirm(c.t, h, c.actor.value, c.now, c.fleet) && y == g.(outgoingConfirmedAt := Some(c.now)) && c.u.order == c.t.order
    case HandoverCompleted => TakesOver(c, h)
    case HandoverCancelled =>
      c.actor.Some? && MayCallOff(c.t, h, c.actor.value, c.fleet) && y == g.(status := HandoverCancelled) && c.u.order == c.t.order
    case HandoverExpired =>
      g.status == HandoverPending && g.expiresAt <= c.now && y == g.(status := HandoverExpired) && c.u.order == c.t.order
  }

  ghost predicate HandoverEnters(c: Change, h: Id)
    requires h in c.u.handovers
  {
    var y := c.u.handovers[h];
    && c.actor.Some? && MayInvite(c.t, y.previous, c.actor.value, c.now, y.driver, y.vehicle, y.plannedTo, c.fleet)
    && y == Handover(c.t.order.id, y.previous, None, y.driver, y.vehicle, c.actor.value.user, y.plannedTo, HandoverPending, c.now,
                     c.now + 15 * MINUTE, None, None)
    && forall g :: g in c.u.handovers && c.u.handovers[g].status == HandoverPending ==> g == h
  }

  ghost predicate HandoversLawful(c: Change) {
    && (forall h :: h in c.t.handovers ==> h in c.u.handovers)
    && (forall h :: h in c.t.handovers && h in c.u.handovers && c.u.handovers[h] != c.t.handovers[h] ==> HandoverMoves(c, h))
    && (forall h :: h in c.u.handovers && h !in c.t.handovers ==> HandoverEnters(c, h))
  }

  // ---- Assignments -----------------------------------------------------------------------------------

  function Ended(r: Assignment, why: ReleaseReason, now: Time): Assignment {
    r.(status := Released, releasedAt := Some(now), releaseReason := Some(why))
  }

  function BackToReady(order: Order): Order { order.(status := Ready, driver := None, assignedAt := None) }

  ghost predicate LetsGo(c: Change, a: Id)
    requires a in c.t.assignments && a in c.u.assignments
  {
    var r, x := c.t.assignments[a], c.u.assignments[a];
    x.releaseReason.Some? && x == Ended(r, x.releaseReason.value, c.now) && c.actor.Some?
    && match x.releaseReason.value
       case OrderCancelled => Holds(c.t, a) && MayCancel(c.t, c.actor.value, c.fleet) && c.u.order.status == Cancelled
       case Reassigned =>
         MayReplace(c.t, a, c.fleet) && Directs(c.actor.value, c.t.order.origin)
         && (exists b :: b in c.u.assignments && b !in c.t.assignments && c.u.assignments[b].status == Pending)
         && c.u.order == (if c.t.order.status == Assigned then BackToReady(c.t.order) else c.t.order)
       case LoadingUndone =>
         && r.status == Accepted && Directs(c.actor.value, c.t.order.origin) && OnBoard(c.t, a) && !OnBoard(c.u, a)
         && Entry(c.u, UndoLoad, Some(a)) && c.u.order == BackToReady(c.t.order)
       case InTransitHandover => exists h :: TakesOver(c, h) && c.t.handovers[h].previous == a
  }

  ghost predicate AssignmentMoves(c: Change, a: Id)
    requires a in c.t.assignments && a in c.u.assignments
  {
    var r, x := c.t.assignments[a], c.u.assignments[a];
    match x.status
    case Pending => false
    case Accepted =>
      c.actor.Some? && MayAccept(c.t, a, c.actor.value, c.now, c.fleet) && x == r.(status := Accepted, acceptedAt := Some(c.now))
      && c.u.order == c.t.order.(status := Assigned, driver := Some(r.driver), assignedAt := Some(c.now))
    case Active =>
      c.actor.Some? && MayStart(c.t, a, c.actor.value, c.fleet) && x == r.(status := Active, startedAt := Some(c.now))
      && c.u.order == c.t.order.(status := InTransit, startedAt := Some(c.now))
    case Rejected =>
      c.actor.Some? && MayReject(c.t, a, c.actor.value, c.fleet) && x == r.(status := Rejected, rejectedAt := Some(c.now))
      && c.u.order == c.t.order
    case Expired => r.status == Pending && r.offerExpiresAt <= c.now && x == r.(status := Expired) && c.u.order == c.t.order
    case Completed =>
      c.actor.Some? && MayFinish(c.t, a, c.actor.value, c.fleet)
      && x == r.(status := AssignmentStatus.Completed, completedAt := Some(c.now))
      && c.u.order == c.t.order.(status := OrderStatus.Completed, deliveredAt := Some(c.now))
    case Released => LetsGo(c, a)
  }

  // A new row is an offer to a suitable pair, or the next leg of a handover.
  ghost predicate AssignmentEnters(c: Change, a: Id)
    requires a in c.u.assignments
  {
    var x := c.u.assignments[a];
    c.actor.Some? && NobodyElse(c.u, Some(a))
    && match x.status
       case Pending =>
         && Directs(c.actor.value, c.t.order.origin) && c.now <= x.plannedFrom < x.plannedTo
         && Suited(c.t.order, x.driver, x.vehicle, x.plannedFrom, x.plannedTo, c.fleet)
         && (c.t.order.status == Ready || c.t.order.status == Assigned) && c.u.order.status == Ready
         && x == Assignment(c.t.order.id, x.driver, x.vehicle, Pending, x.plannedFrom, x.plannedTo, c.actor.value.user, c.now,
                            c.now + 15 * MINUTE, None, None, None, None, None, None)
       case Active => exists h :: TakesOver(c, h) && c.u.handovers[h].next == Some(a)
       case _ => false
  }

  ghost predicate AssignmentsLawful(c: Change) {
    && (forall a :: a in c.t.assignments ==> a in c.u.assignments)
    && (forall a :: a in c.t.assignments && a in c.u.assignments && c.u.assignments[a] != c.t.assignments[a] ==> AssignmentMoves(c, a))
    && (forall a :: a in c.u.assignments && a !in c.t.assignments ==> AssignmentEnters(c, a))
  }

  // ---- Journal, receipt and incidents ------------------------------------------------------------------

  // The incident a count raises against the one it is compared with.
  ghost predicate Notes(c: Change, cause: Cause, n: Option<nat>, actual: nat, a: Option<Id>, w: Option<Id>)
    requires c.actor.Some?
  {
    if n.None? || n.value == actual then c.u.incidents == c.t.incidents
    else exists i: Id :: i !in c.t.incidents && c.u.incidents == c.t.incidents[i := Incident(
      c.t.order.id, a, w, cause, QuantityDiscrepancy, n, Some(actual), true, Unresolved, c.actor.value.user, c.now, None, None)]
  }

  // A journal row is entered by the manager of its site, alone, and a count that differs from the one
  // it is compared with raises an incident that says so.
  ghost predicate OperationEnters(c: Change, k: OpKey)
    requires k in c.u.operations
  {
    var op := c.u.operations[k];
    && c.actor.Some? && MayRecord(c.t, c.actor.value, k.kind, k.assignment, op.packages, c.fleet)
    && k.order == c.t.order.id && c.u.operations == c.t.operations[k := op]
    && op == Operation(op.id, SiteFor(c.t.order, k.kind).value, op.packages, c.actor.value.user, c.now)
    && (exists n :: Compares(c.t, k.kind, k.assignment, n)
          && Notes(c, OfOperation(op.id), n, op.packages, k.assignment, SiteFor(c.t.order, k.kind)))
  }

  ghost predicate JournalLawful(c: Change) {
    && (forall k :: k in c.t.operations ==> k in c.u.operations && c.u.operations[k] == c.t.operations[k])
    && (forall k :: k in c.u.operations && k !in c.t.operations ==> OperationEnters(c, k))
  }

  ghost predicate ReceiptLawful(c: Change) {
    c.u.receipt == c.t.receipt
    || (&& c.t.receipt.None? && c.u.receipt.Some? && c.actor.Some?
        && var r := c.u.receipt.value;
           && MaySign(c.t, r.assignment, c.actor.value, r.packages, r.receivedAt, c.fleet)
           && r.recordedAt == c.now && r.recordedBy == c.actor.value.user
           && (exists n :: ComparesReceipt(c.t, n) && Notes(c, OfReceipt, n, r.packages, Some(r.assignment), c.t.order.origin)))
  }

  ghost predicate IncidentMoves(c: Change, i: Id)
    requires i in c.t.incidents && i in c.u.incidents
  {
    var r, x := c.t.incidents[i], c.u.incidents[i];
    c.actor.Some? && MayResolve(c.t, i, c.actor.value, x.resolution)
    && x == r.(open := false, resolution := x.resolution, resolvedBy := Some(c.actor.value.user), resolvedAt := Some(c.now))
  }

  // A reported incident; the others come with the row that raised them.
  ghost predicate IncidentEnters(c: Change, i: Id)
    requires i in c.u.incidents
  {
    var x := c.u.incidents[i];
    c.actor.Some?
    && match x.cause
       case Reported =>
         && MayReport(c.t, c.actor.value, x.kind, c.fleet)
         && x == Incident(c.t.order.id, x.assignment, Blamed(c.t.order, x.kind), Reported, x.kind, x.expected, x.actual,
                          true, Unresolved, c.actor.value.user, c.now, None, None)
         && (x.assignment.Some? ==> x.assignment.value in c.t.assignments && InCharge(c.t.assignments[x.assignment.value]))
         && (x.assignment.None? ==> forall a :: a in c.t.assignments ==> !InCharge(c.t.assignments[a]))
         && (x.kind == QuantityDiscrepancy ==> x.expected.Some? && x.actual.Some? && x.expected != x.actual)
       case OfOperation(_) => exists k :: k in c.u.operations && k !in c.t.operations && x.cause == OfOperation(c.u.operations[k].id)
       case OfReceipt => c.t.receipt.None? && c.u.receipt.Some?
  }

  // The destination answers for what shows on arrival, but for the vehicle; the origin for the rest.
  function Blamed(order: Order, kind: IncidentKind): Option<Id> {
    if order.status == Arrived && order.destination.Some? && kind != VehicleBreakdown then order.destination else order.origin
  }

  ghost predicate IncidentsLawful(c: Change) {
    && (forall i :: i in c.t.incidents ==> i in c.u.incidents)
    && (forall i :: i in c.t.incidents && i in c.u.incidents && c.u.incidents[i] != c.t.incidents[i] ==> IncidentMoves(c, i))
    && (forall i :: i in c.u.incidents && i !in c.t.incidents ==> IncidentEnters(c, i))
  }

  // ---- The order and its log -----------------------------------------------------------------------------

  predicate Changed(c: Change, a: Id, status: AssignmentStatus) {
    a in c.t.assignments && a in c.u.assignments && c.u.assignments[a] != c.t.assignments[a] && c.u.assignments[a].status == status
  }

  // Only a draft is edited: its cargo and window, priced anew, or its declared count. What happens
  // to an order later leaves all of these alone.
  predicate EditsDraft(c: Change) {
    var x := c.u.order;
    c.actor.Some? && Edits(c.actor.value, c.t.order) && c.t.order.status == Draft
    && (|| (&& x == c.t.order.(weight := x.weight, volume := x.volume, pickupFrom := x.pickupFrom, pickupTo := x.pickupTo, priced := true)
            && x.weight >= 0.0 && x.volume >= 0.0 && Begins(x.pickupFrom, x.pickupTo))
        || (x.declared.Some? && x == c.t.order.(policy := 1, declared := x.declared)))
  }

  ghost predicate Submits(c: Change) {
    c.actor.Some? && MaySubmit(c.t.order, c.actor.value, Some(Route(true)))
    && c.u.order == c.t.order.(status := Ready, submittedAt := Some(c.now))
  }

  ghost predicate OrderMoves(c: Change) {
    match c.u.order.status
    case Draft => EditsDraft(c)
    case Ready =>
      || Submits(c)
      || (c.t.order.status == Assigned && c.u.order == BackToReady(c.t.order)
          && exists a :: Changed(c, a, Released) && c.u.assignments[a].releaseReason != Some(OrderCancelled))
    case Assigned => exists a :: Changed(c, a, Accepted)
    case InTransit => (exists a :: Changed(c, a, Active)) || exists h :: TakesOver(c, h)
    case Arrived =>
      c.actor.Some? && (exists a :: MayArrive(c.t, a, c.actor.value, c.fleet))
      && c.u.order == c.t.order.(status := Arrived, arrivedAt := Some(c.now))
    case Completed => exists a :: Changed(c, a, AssignmentStatus.Completed)
    case Cancelled =>
      c.actor.Some? && MayCancel(c.t, c.actor.value, c.fleet) && c.u.order == c.t.order.(status := Cancelled, cancelledAt := Some(c.now))
      && (forall a :: a in c.u.assignments ==> !Holds(c.u, a))
  }

  // Why: what the actor said on cancelling, the reason an assignment was released for, or nothing.
  ghost predicate Reasoned(c: Change, reason: Option<StatusReason>) {
    if c.u.order.status == Cancelled then reason == c.said
    else if exists a :: Changed(c, a, Released) then
      exists a :: Changed(c, a, Released) && c.u.assignments[a].releaseReason.Some?
        && reason == Some(Because(c.u.assignments[a].releaseReason.value))
    else reason == None
  }

  // The log gains one line, by the actor, whenever the status changes, and none otherwise.
  ghost predicate LogLawful(c: Change) {
    if c.u.order.status == c.t.order.status then c.u.history == c.t.history
    else c.actor.Some?
         && (exists reason :: Reasoned(c, reason) && c.u.history == c.t.history + [
               StatusChange(c.t.order.status, c.u.order.status, c.actor.value.user, reason, c.now)])
  }

  ghost predicate OrderLawful(c: Change) {
    (c.u.order != c.t.order ==> OrderMoves(c)) && LogLawful(c)
  }

  ghost predicate Lawful(c: Change) {
    AssignmentsLawful(c) && HandoversLawful(c) && JournalLawful(c) && ReceiptLawful(c) && IncidentsLawful(c) && OrderLawful(c)
  }

  // ---- Tables that stay, and tables where one row moves --------------------------------------------------

  lemma RecordsStay(c: Change)
    requires c.u.operations == c.t.operations && c.u.receipt == c.t.receipt && c.u.incidents == c.t.incidents
    ensures JournalLawful(c) && ReceiptLawful(c) && IncidentsLawful(c)
  {
  }

  lemma AssignmentsStay(c: Change)
    requires c.u.assignments == c.t.assignments
    ensures AssignmentsLawful(c)
  {
  }

  lemma HandoversStay(c: Change)
    requires c.u.handovers == c.t.handovers
    ensures HandoversLawful(c)
  {
  }

  lemma OrderStays(c: Change)
    requires c.u.order == c.t.order && c.u.history == c.t.history
    ensures OrderLawful(c)
  {
  }

  lemma AssignmentMoved(c: Change, a: Id)
    requires a in c.t.assignments && a in c.u.assignments && c.u.assignments == c.t.assignments[a := c.u.assignments[a]]
    requires AssignmentMoves(c, a)
    ensures AssignmentsLawful(c)
  {
    hide AssignmentMoves;
  }

  lemma HandoverMoved(c: Change, h: Id)
    requires h in c.t.handovers && h in c.u.handovers && c.u.handovers == c.t.handovers[h := c.u.handovers[h]]
    requires HandoverMoves(c, h)
    ensures HandoversLawful(c)
  {
    hide HandoverMoves;
  }

  lemma LoggedOnce(c: Change, reason: Option<StatusReason>)
    requires c.actor.Some? && c.u.order.status != c.t.order.status
    requires c.u.history == c.t.history + [StatusChange(c.t.order.status, c.u.order.status, c.actor.value.user, reason, c.now)]
    requires Reasoned(c, reason)
    ensures LogLawful(c)
  {
    hide Reasoned;
  }

  lemma Together(c: Change)
    requires AssignmentsLawful(c) && HandoversLawful(c) && JournalLawful(c) && ReceiptLawful(c) && IncidentsLawful(c) && OrderLawful(c)
    ensures Lawful(c)
  {
  }

  // One assignment moves, and the order with it.
  lemma OneAssignment(c: Change, a: Id, status: AssignmentStatus)
    requires a in c.t.assignments && a in c.u.assignments && c.u.assignments[a].status == status
    requires c.u == c.t.(assignments := c.t.assignments[a := c.u.assignments[a]], order := c.u.order, history := c.u.history)
    requires c.u.assignments[a] != c.t.assignments[a] && AssignmentMoves(c, a) && LogLawful(c)
    requires c.u.order == c.t.order || (c.u.order.status == Assigned && status == AssignmentStatus.Accepted)
             || (c.u.order.status == InTransit && status == AssignmentStatus.Active)
             || (c.u.order.status == OrderStatus.Completed && status == AssignmentStatus.Completed)
    ensures Lawful(c)
  {
    hide AssignmentMoves, LogLawful, AssignmentsLawful, HandoversLawful, JournalLawful, ReceiptLawful, IncidentsLawful, Lawful, TakesOver;
    AssignmentMoved(c, a);
    assert Changed(c, a, status);
    HandoversStay(c);
    RecordsStay(c);
    Together(c);
  }

  // ---- Command by command ---------------------------------------------------------------------------------

  ghost predicate Conducts(t: Trip, v: Verdict, actor: Option<Actor>, now: Time, fleet: Registry, said: Option<StatusReason> := None) {
    v.Commit? ==> Lawful(Change(t, v.trip, actor, now, fleet, said))
  }

  lemma EditDraftConducts(t: Trip, who: Actor, change: DraftChange, route: Option<Route>, now: Time, fleet: Registry)
    requires who.role != DriverRole
    ensures Conducts(t, EditDraft(t, who, change, route), Some(who), now, fleet)
  {
  }

  lemma DetailsConduct(t: Trip, who: Actor, packages: nat, counterparties: Option<Error>, now: Time, fleet: Registry)
    requires who.role != DriverRole
    ensures Conducts(t, SetDetails(t, who, packages, counterparties), Some(who), now, fleet)
  {
  }

  lemma SubmitConducts(t: Trip, who: Actor, now: Time, route: Option<Route>, fleet: Registry)
    ensures Conducts(t, Submit(t, who, now, route), Some(who), now, fleet)
  {
  }

  lemma CancelConducts(t: Trip, who: Actor, now: Time, reason: Option<StatusReason>, fleet: Registry)
    requires who.role != DriverRole
    ensures Conducts(t, Cancel(t, who, now, reason, fleet), Some(who), now, fleet, reason)
  {
    hide MayCancel, Lawful, HandoversLawful, JournalLawful, ReceiptLawful, IncidentsLawful, LogLawful;
    CancelExactly(t, who, now, reason, fleet);
    var v := Cancel(t, who, now, reason, fleet);
    if v.Commit? {
      var c := Change(t, v.trip, Some(who), now, fleet, reason);
      HandoversStay(c);
      RecordsStay(c);
      LoggedOnce(c, reason);
      CancelMoves(c, reason);
      Together(c);
    }
  }

  lemma CancelMoves(c: Change, reason: Option<StatusReason>)
    requires c.actor.Some? && MayCancel(c.t, c.actor.value, c.fleet) && LogLawful(c)
    requires c.u.order == c.t.order.(status := Cancelled, cancelledAt := Some(c.now))
    requires c.u.assignments == map a | a in c.t.assignments ::
               if a in Cancellable(c.t) then ReleasedRow(c.t.assignments[a], OrderCancelled, c.now) else c.t.assignments[a]
    ensures AssignmentsLawful(c) && OrderLawful(c)
  {
    hide MayCancel, LogLawful, TakesOver;
  }

  lemma AcceptConducts(t: Trip, a: Id, who: Actor, now: Time, fleet: Registry)
    requires a in t.assignments && who.role == DriverRole
    ensures Conducts(t, Accept(t, a, who, now, fleet), Some(who), now, fleet)
  {
    hide Objection, MayAccept, Lawful, OrderLawful;
    AcceptExactly(t, a, who, now, fleet);
    var v := Accept(t, a, who, now, fleet);
    if v.Commit? {
      var c := Change(t, v.trip, Some(who), now, fleet);
      if v.reply.None? { LoggedOnce(c, None); }
      OneAssignment(c, a, if v.reply.None? then Accepted else Expired);
    }
  }

  lemma RejectConducts(t: Trip, a: Id, who: Actor, now: Time, fleet: Registry)
    requires a in t.assignments && who.role == DriverRole
    ensures Conducts(t, Reject(t, a, who, now, fleet), Some(who), now, fleet)
  {
    hide MayReject, Lawful, OrderLawful;
    RejectExactly(t, a, who, now, fleet);
    var v := Reject(t, a, who, now, fleet);
    if v.Commit? { OneAssignment(Change(t, v.trip, Some(who), now, fleet), a, Rejected); }
  }

  lemma ExpireConducts(t: Trip, a: Id, now: Time, fleet: Registry)
    requires a in t.assignments
    ensures Conducts(t, Expire(t, a, now, fleet), None, now, fleet)
  {
    var v := Expire(t, a, now, fleet);
    if v.Commit? {
      var c := Change(t, v.trip, None, now, fleet);
      hide Lawful, OrderLawful, AssignmentsLawful, HandoversLawful, JournalLawful, ReceiptLawful, IncidentsLawful;
      if v.trip == t {
        AssignmentsStay(c);
        HandoversStay(c);
        RecordsStay(c);
        OrderStays(c);
        Together(c);
      } else {
        OneAssignment(c, a, Expired);
      }
    }
  }

  lemma StartConducts(t: Trip, a: Id, who: Actor, now: Time, fleet: Registry)
    requires a in t.assignments && who.role == DriverRole
    ensures Conducts(t, Start(t, a, who, now, fleet), Some(who), now, fleet)
  {
    hide MayStart, HasOpenIncident, Lawful, OrderLawful, Performed;
    StartExactly(t, a, who, now, fleet);
    var v := Start(t, a, who, now, fleet);
    if v.Commit? {
      var c := Change(t, v.trip, Some(who), now, fleet);
      LoggedOnce(c, None);
      OneAssignment(c, a, Active);
    }
  }

  lemma ArriveConducts(t: Trip, a: Id, who: Actor, now: Time, fleet: Registry)
    requires a in t.assignments && who.role == DriverRole
    ensures Conducts(t, Arrive(t, a, who, now, fleet), Some(who), now, fleet)
  {
    hide MayArrive;
    ArriveExactly(t, a, who, now, fleet);
    var v := Arrive(t, a, who, now, fleet);
    if v.Commit? {
      var c := Change(t, v.trip, Some(who), now, fleet);
      assert MayArrive(t, a, who, fleet);
      LoggedOnce(c, None);
    }
  }

  lemma CompleteConducts(t: Trip, a: Id, who: Actor, now: Time, request: CompleteRequest, fleet: Registry)
    requires a in t.assignments && who.role != Client
    ensures Conducts(t, Complete(t, a, who, now, request, fleet), Some(who), now, fleet)
  {
    hide MayFinish, HasOpenIncident, Lawful, OrderLawful, Performed;
    CompleteExactly(t, a, who, now, request, fleet);
    var v := Complete(t, a, who, now, request, fleet);
    if v.Commit? {
      var c := Change(t, v.trip, Some(who), now, fleet);
      LoggedOnce(c, None);
      OneAssignment(c, a, AssignmentStatus.Completed);
    }
  }

  // ---- Offers ----------------------------------------------------------------------------------------------

  lemma OfferEnters(t: Trip, who: Actor, now: Time, request: OfferRequest, fleet: Registry,
                    stored: Option<StoredRecommendation>, id: Id, taken: bool)
    requires (who.role == Manager || who.role == Admin) && Offer(t, who, now, request, fleet, stored, id, taken).Commit?
    ensures var u := Offer(t, who, now, request, fleet, stored, id, taken).trip;
            id in u.assignments && id !in t.assignments && u.assignments[id].status == Pending
            && AssignmentEnters(Change(t, u, Some(who), now, fleet), id)
  {
    hide Objection, Suited, Recommended, Suggested;
    OfferExactly(t, who, now, request, fleet, stored, id, taken);
  }

  lemma OfferReplaces(t: Trip, who: Actor, now: Time, request: OfferRequest, fleet: Registry,
                      stored: Option<StoredRecommendation>, id: Id, taken: bool, p: Id)
    requires (who.role == Manager || who.role == Admin) && Offer(t, who, now, request, fleet, stored, id, taken).Commit?
    requires request.supersedes == Some(p)
    ensures var c := Change(t, Offer(t, who, now, request, fleet, stored, id, taken).trip, Some(who), now, fleet);
            && p in t.assignments && p in c.u.assignments && AssignmentMoves(c, p) && Changed(c, p, Released)
            && c.u.assignments[p].releaseReason == Some(Reassigned) && MayReplace(t, p, fleet)
  {
    hide Objection, Suited, Recommended, Suggested, NobodyElse;
    OfferExactly(t, who, now, request, fleet, stored, id, taken);
    OfferEnters(t, who, now, request, fleet, stored, id, taken);
  }

  lemma OfferShape(t: Trip, who: Actor, now: Time, request: OfferRequest, fleet: Registry,
                   stored: Option<StoredRecommendation>, id: Id, taken: bool)
    requires Offer(t, who, now, request, fleet, stored, id, taken).Commit?
    ensures var u, p := Offer(t, who, now, request, fleet, stored, id, taken).trip, request.supersedes;
            && u == t.(assignments := u.assignments, order := u.order, history := u.history)
            && (p.Some? ==> p.value in t.assignments && p.value != id && p.value in u.assignments)
            && id in u.assignments && id !in t.assignments
            && u.assignments == (if p.Some? then t.assignments[p.value := u.assignments[p.value]] else t.assignments)[id := u.assignments[id]]
            && (if p.Some? && t.order.status == Assigned then
                  u.order == BackToReady(t.order)
                  && u.history == t.history + [StatusChange(Assigned, Ready, who.user, Some(Because(Reassigned)), now)]
                else u.order == t.order && u.history == t.history)
  {
    hide Objection, Recommended, EffectiveIn;
  }

  lemma OfferConducts(t: Trip, who: Actor, now: Time, request: OfferRequest, fleet: Registry,
                      stored: Option<StoredRecommendation>, id: Id, taken: bool)
    requires who.role == Manager || who.role == Admin
    ensures Conducts(t, Offer(t, who, now, request, fleet, stored, id, taken), Some(who), now, fleet)
  {
    hide Offer, AssignmentEnters, AssignmentMoves, Lawful, HandoversLawful, JournalLawful, ReceiptLawful, IncidentsLawful, LogLawful;
    var v, p := Offer(t, who, now, request, fleet, stored, id, taken), request.supersedes;
    if v.Commit? {
      var c := Change(t, v.trip, Some(who), now, fleet);
      OfferShape(t, who, now, request, fleet, stored, id, taken);
      OfferEnters(t, who, now, request, fleet, stored, id, taken);
      if p.Some? { OfferReplaces(t, who, now, request, fleet, stored, id, taken, p.value); }
      if c.u.order == t.order { OrderStays(c); } else { LoggedOnce(c, Some(Because(Reassigned))); }
      HandoversStay(c);
      RecordsStay(c);
      Together(c);
    }
  }

  // ---- The warehouse ---------------------------------------------------------------------------------------

  lemma NotesWhat(t: Trip, u: Trip, who: Actor, now: Time, fleet: Registry, cause: Cause, n: Option<nat>, actual: nat,
                  a: Option<Id>, w: Option<Id>, i: Id)
    requires n.Some? && n.value != actual ==> i !in t.incidents
    requires u.incidents == WithDiscrepancy(t, cause, n, actual, a, w, i, who.user, now).incidents
    ensures Notes(Change(t, u, Some(who), now, fleet), cause, n, actual, a, w)
  {
  }

  lemma OperationShape(t: Trip, who: Actor, now: Time, request: OperationRequest, fleet: Registry,
                       elsewhere: bool, id: Id, taken: bool, incident: Id, spent: bool)
    requires request.packages >= 0 && Operate(t, who, now, request, fleet, elsewhere, id, taken, incident, spent).Commit?
    ensures var u, k := Operate(t, who, now, request, fleet, elsewhere, id, taken, incident, spent).trip,
                        OpKey(t.order.id, request.kind, request.assignment);
            var expected := ExpectedBy(t, request.kind, request.assignment);
            && k !in t.operations && SiteFor(t.order, request.kind).Some?
            && u.operations == t.operations[k := Operation(id, SiteFor(t.order, request.kind).value, request.packages, who.user, now)]
            && u.handovers == t.handovers && u.receipt == t.receipt
            && (expected.Some? && expected.value != request.packages ==> incident !in t.incidents)
            && u.incidents == WithDiscrepancy(t, OfOperation(id), expected, request.packages, request.assignment,
                                              SiteFor(t.order, request.kind), incident, who.user, now).incidents
            && (request.kind != UndoLoad ==> u.assignments == t.assignments && u.order == t.order && u.history == t.history)
            && (request.kind == UndoLoad ==>
                  && request.assignment.Some? && request.assignment.value in t.assignments
                  && var a := request.assignment.value;
                     && u.assignments == t.assignments[a := Ended(t.assignments[a], LoadingUndone, now)]
                     && u.order == BackToReady(t.order)
                     && u.history == t.history + [StatusChange(t.order.status, Ready, who.user, Some(Because(LoadingUndone)), now)])
  {
    hide ExpectedIn, SiteObjection, EffectiveIn;
  }

  lemma OperationEntersOne(t: Trip, who: Actor, now: Time, request: OperationRequest, fleet: Registry,
                           elsewhere: bool, id: Id, taken: bool, incident: Id, spent: bool)
    requires (who.role == Manager || who.role == Admin) && request.packages >= 0 && OneEffective(t.operations, t.order.id)
    requires (request.kind == Receive || request.kind == Load) ==> request.packages > 0
    requires Operate(t, who, now, request, fleet, elsewhere, id, taken, incident, spent).Commit?
    ensures var c := Change(t, Operate(t, who, now, request, fleet, elsewhere, id, taken, incident, spent).trip, Some(who), now, fleet);
            && MayRecord(t, who, request.kind, request.assignment, request.packages, fleet)
            && JournalLawful(c) && IncidentsLawful(c)
  {
    hide Operate, ExpectedBy, Compares, MayRecord;
    var v := Operate(t, who, now, request, fleet, elsewhere, id, taken, incident, spent);
    var c := Change(t, v.trip, Some(who), now, fleet);
    var expected := ExpectedBy(t, request.kind, request.assignment);
    OperationShape(t, who, now, request, fleet, elsewhere, id, taken, incident, spent);
    OperateSucceeds(t, who, now, request, fleet, elsewhere, id, taken, incident, spent);
    OperateExactly(t, who, now, request, fleet, elsewhere, id, taken, incident, spent, expected);
    ExpectedCompares(t, request.kind, request.assignment);
    var w := SiteFor(t.order, request.kind);
    NotesWhat(t, c.u, who, now, fleet, OfOperation(id), expected, request.packages, request.assignment, w, incident);
    var k := OpKey(t.order.id, request.kind, request.assignment);
    assert OperationEnters(c, k) by { hide Notes; }
  }

  lemma OperateSucceeds(t: Trip, who: Actor, now: Time, request: OperationRequest, fleet: Registry,
                        elsewhere: bool, id: Id, taken: bool, incident: Id, spent: bool)
    requires request.packages >= 0 && Operate(t, who, now, request, fleet, elsewhere, id, taken, incident, spent).Commit?
    ensures Succeeds(Operate(t, who, now, request, fleet, elsewhere, id, taken, incident, spent))
  {
    hide ExpectedIn, OperationObjection;
  }

  lemma UndoneLetsGo(c: Change, a: Id, packages: int)
    requires c.actor.Some? && MayRecord(c.t, c.actor.value, UndoLoad, Some(a), packages, c.fleet)
    requires c.u.assignments == c.t.assignments[a := Ended(c.t.assignments[a], LoadingUndone, c.now)]
    requires c.u.order == BackToReady(c.t.order) && OpKey(c.t.order.id, UndoLoad, Some(a)) in c.u.operations
    ensures AssignmentMoves(c, a) && Changed(c, a, Released)
  {
  }

  lemma OperateConducts(t: Trip, who: Actor, now: Time, request: OperationRequest, fleet: Registry,
                        elsewhere: bool, id: Id, taken: bool, incident: Id, spent: bool)
    requires (who.role == Manager || who.role == Admin) && request.packages >= 0 && OneEffective(t.operations, t.order.id)
    requires (request.kind == Receive || request.kind == Load) ==> request.packages > 0
    ensures Conducts(t, Operate(t, who, now, request, fleet, elsewhere, id, taken, incident, spent), Some(who), now, fleet)
  {
    hide Operate, ExpectedBy, Lawful, AssignmentsLawful, HandoversLawful, JournalLawful, IncidentsLawful, AssignmentMoves, LogLawful;
    var v := Operate(t, who, now, request, fleet, elsewhere, id, taken, incident, spent);
    if v.Commit? {
      var c := Change(t, v.trip, Some(who), now, fleet);
      OperationShape(t, who, now, request, fleet, elsewhere, id, taken, incident, spent);
      OperationEntersOne(t, who, now, request, fleet, elsewhere, id, taken, incident, spent);
      HandoversStay(c);
      if request.kind == UndoLoad {
        var a := request.assignment.value;
        UndoneLetsGo(c, a, request.packages);
        AssignmentMoved(c, a);
        LoggedOnce(c, Some(Because(LoadingUndone)));
      } else {
        AssignmentsStay(c);
        OrderStays(c);
      }
      Together(c);
    }
  }

  // ---- Incidents and the receipt ------------------------------------------------------------------------------

  lemma ReportConducts(t: Trip, who: Actor, now: Time, request: IncidentRequest, fleet: Registry, id: Id, taken: bool)
    requires NonNegative(request.expected) && NonNegative(request.actual) && OneOpen(t)
    requires request.kind == QuantityDiscrepancy ==> Differ(request.expected, request.actual)
    ensures Conducts(t, Report(t, who, now, request, fleet, id, taken), Some(who), now, fleet)
  {
    ReportExactly(t, who, now, request, fleet, id, taken);
    hide MayReport;
  }

  lemma ResolveConducts(t: Trip, i: Id, who: Actor, now: Time, request: ResolveRequest, fleet: Registry)
    requires i in t.incidents && (who.role == Manager || who.role == Admin)
    ensures Conducts(t, Resolve(t, i, who, now, request), Some(who), now, fleet)
  {
    ResolveExactly(t, i, who, now, request);
    hide MayResolve, Settles;
  }

  lemma SignedShape(t: Trip, who: Actor, now: Time, request: ReceiptRequest, fleet: Registry,
                    elsewhere: bool, incident: Id, spent: bool)
    requires request.packages >= 0 && Acknowledge(t, who, now, request, fleet, elsewhere, incident, spent).Commit?
    ensures var v, n := Acknowledge(t, who, now, request, fleet, elsewhere, incident, spent), ExpectedAtReceipt(t);
            && Succeeds(v) && (n.Some? && n.value != request.packages ==> incident !in t.incidents)
            && v.trip == t.(receipt := v.trip.receipt, incidents := v.trip.incidents)
            && v.trip.receipt == Some(Receipt(request.assignment, request.recipient, request.packages,
                 if request.receivedAt.Some? then request.receivedAt.value else now, now, who.user))
            && v.trip.incidents == WithDiscrepancy(t, OfReceipt, n, request.packages, Some(request.assignment), t.order.origin,
                                                   incident, who.user, now).incidents
  {
    hide ExpectedAtReceipt;
  }

  lemma SignedLawful(c: Change, n: Option<nat>)
    requires c.actor.Some? && c.t.receipt.None? && c.u.receipt.Some? && c.u.operations == c.t.operations && ComparesReceipt(c.t, n)
    requires var r := c.u.receipt.value;
             && MaySign(c.t, r.assignment, c.actor.value, r.packages, r.receivedAt, c.fleet)
             && r.recordedAt == c.now && r.recordedBy == c.actor.value.user
             && Notes(c, OfReceipt, n, r.packages, Some(r.assignment), c.t.order.origin)
    ensures JournalLawful(c) && ReceiptLawful(c) && IncidentsLawful(c)
  {
    hide ComparesReceipt, MaySign;
  }

  lemma AcknowledgeConducts(t: Trip, who: Actor, now: Time, request: ReceiptRequest, fleet: Registry,
                            elsewhere: bool, incident: Id, spent: bool)
    requires who.role != Client && request.packages >= 0 && OneEffective(t.operations, t.order.id)
    ensures Conducts(t, Acknowledge(t, who, now, request, fleet, elsewhere, incident, spent), Some(who), now, fleet)
  {
    hide Acknowledge, ExpectedAtReceipt, ComparesReceipt, Lawful, AssignmentsLawful, HandoversLawful, OrderLawful, JournalLawful, ReceiptLawful,
         IncidentsLawful, Notes;
    var v, n := Acknowledge(t, who, now, request, fleet, elsewhere, incident, spent), ExpectedAtReceipt(t);
    if v.Commit? {
      var c := Change(t, v.trip, Some(who), now, fleet);
      SignedShape(t, who, now, request, fleet, elsewhere, incident, spent);
      AcknowledgeExactly(t, who, now, request, fleet, elsewhere, incident, spent, n);
      ReceiptCompares(t);
      NotesWhat(t, c.u, who, now, fleet, OfReceipt, n, request.packages, Some(request.assignment), t.order.origin, incident);
      SignedLawful(c, n);
      AssignmentsStay(c);
      HandoversStay(c);
      OrderStays(c);
      Together(c);
    }
  }

  // ---- Handovers ------------------------------------------------------------------------------------------------

  lemma InviteShape(t: Trip, who: Actor, now: Time, request: HandoverRequest, fleet: Registry, id: Id, taken: bool)
    requires Invite(t, who, now, request, fleet, id, taken).Commit?
    ensures var v := Invite(t, who, now, request, fleet, id, taken);
            && Succeeds(v) && id !in t.handovers && id in v.trip.handovers
            && v.trip == t.(handovers := v.trip.handovers)
            && v.trip.handovers == LapseInvitations(t, now).handovers[id := v.trip.handovers[id]]
            && v.trip.handovers[id].previous in t.assignments && t.assignments[v.trip.handovers[id].previous].status == AssignmentStatus.Active
            && v.trip.handovers[id] == Handover(t.order.id, v.trip.handovers[id].previous, None, request.driver, request.vehicle, who.user,
                 request.plannedTo, HandoverPending, now, now + 15 * MINUTE, None, None)
            && forall h :: h in LapseInvitations(t, now).handovers ==> LapseInvitations(t, now).handovers[h].status != HandoverPending
  {
    hide Objection;
  }

  lemma InviteConducts(t: Trip, who: Actor, now: Time, request: HandoverRequest, fleet: Registry, id: Id, taken: bool)
    requires (who.role == Manager || who.role == Admin) && OneOpen(t) && now < request.plannedTo
    ensures Conducts(t, Invite(t, who, now, request, fleet, id, taken), Some(who), now, fleet)
  {
    hide Invite, Suited, Lawful, AssignmentsLawful, JournalLawful, ReceiptLawful, IncidentsLawful, OrderLawful;
    var v := Invite(t, who, now, request, fleet, id, taken);
    if v.Commit? {
      var c := Change(t, v.trip, Some(who), now, fleet);
      InviteShape(t, who, now, request, fleet, id, taken);
      InviteExactly(t, who, now, request, fleet, id, taken);
      var a :| MayInvite(t, a, who, now, request.driver, request.vehicle, request.plannedTo, fleet);
      OneActive(t, a, c.u.handovers[id].previous);
      AssignmentsStay(c);
      RecordsStay(c);
      OrderStays(c);
      Together(c);
    }
  }

  lemma OneActive(t: Trip, a: Id, b: Id)
    requires OneOpen(t) && a in t.assignments && b in t.assignments
    requires t.assignments[a].status == AssignmentStatus.Active && t.assignments[b].status == AssignmentStatus.Active
    ensures a == b
  {
    assert Open(t.assignments[a]) && Open(t.assignments[b]);
  }

  // An answer that keeps the trip with the driver who has it.
  lemma ReplyConducts(t: Trip, h: Id, who: Actor, now: Time, action: HandoverAction, fleet: Registry, id: Id, taken: bool)
    requires h in t.handovers && who.role != Client && action != AcceptHandover
    ensures Conducts(t, Answer(t, h, who, now, action, fleet, id, taken), Some(who), now, fleet)
  {
    hide MayConfirm, MayCallOff, Lawful, AssignmentsLawful, HandoversLawful, JournalLawful, ReceiptLawful, IncidentsLawful, OrderLawful, TakeOver;
    AnswerExactly(t, h, who, now, action, fleet, id, taken);
    var v := Answer(t, h, who, now, action, fleet, id, taken);
    if v.Commit? {
      var c := Change(t, v.trip, Some(who), now, fleet);
      HandoverMoved(c, h);
      AssignmentsStay(c);
      RecordsStay(c);
      OrderStays(c);
      Together(c);
    }
  }

  lemma TakeOverShape(t: Trip, h: Id, who: Actor, now: Time, fleet: Registry, id: Id, taken: bool)
    requires h in t.handovers && who.role != Client && Answer(t, h, who, now, AcceptHandover, fleet, id, taken).Commit?
    ensures var v, g := Answer(t, h, who, now, AcceptHandover, fleet, id, taken), t.handovers[h];
            && g.previous in t.assignments
            && if v.reply.Some? then g.status == HandoverPending && g.expiresAt <= now
                                     && v.trip == t.(handovers := t.handovers[h := g.(status := HandoverExpired)])
               else id !in t.assignments
                    && v.trip == t.(
                         handovers := t.handovers[h := g.(status := HandoverCompleted, completedAt := Some(now), next := Some(id))],
                         order := t.order.(driver := Some(g.driver)),
                         assignments := t.assignments[g.previous := Ended(t.assignments[g.previous], InTransitHandover, now)][id :=
                           HandedLeg(Change(t, v.trip, Some(who), now, fleet), g)])
  {
    hide Objection;
  }

  lemma AcceptanceTakesOver(t: Trip, h: Id, who: Actor, now: Time, fleet: Registry, id: Id, taken: bool)
    requires h in t.handovers && who.role != Client && Succeeds(Answer(t, h, who, now, AcceptHandover, fleet, id, taken))
    ensures var c := Change(t, Answer(t, h, who, now, AcceptHandover, fleet, id, taken).trip, Some(who), now, fleet);
            TakesOver(c, h) && NobodyElse(c.u, Some(id))
  {
    hide Answer, MayTakeOver;
    AnswerExactly(t, h, who, now, AcceptHandover, fleet, id, taken);
    TakeOverShape(t, h, who, now, fleet, id, taken);
  }

  lemma TakeOverConducts(t: Trip, h: Id, who: Actor, now: Time, fleet: Registry, id: Id, taken: bool)
    requires h in t.handovers && who.role != Client
    ensures Conducts(t, Answer(t, h, who, now, AcceptHandover, fleet, id, taken), Some(who), now, fleet)
  {
    hide Answer, Lawful, JournalLawful, ReceiptLawful, IncidentsLawful, MayTakeOver, HandoversLawful, AssignmentsLawful, OrderLawful, TakesOver;
    var v := Answer(t, h, who, now, AcceptHandover, fleet, id, taken);
    if v.Commit? {
      var c := Change(t, v.trip, Some(who), now, fleet);
      TakeOverShape(t, h, who, now, fleet, id, taken);
      RecordsStay(c);
      HandoverMoved(c, h) by { if v.reply.None? { AcceptanceTakesOver(t, h, who, now, fleet, id, taken); } }
      if v.reply.None? {
        AcceptanceTakesOver(t, h, who, now, fleet, id, taken);
        LegsChange(c, h, id);
        OrderHanded(c, h);
      } else {
        AssignmentsStay(c);
        OrderStays(c);
      }
      Together(c);
    }
  }

  lemma LegsChange(c: Change, h: Id, id: Id)
    requires TakesOver(c, h) && NobodyElse(c.u, Some(id)) && c.u.handovers[h].next == Some(id)
    requires var g := c.t.handovers[h].previous;
             g in c.t.assignments && c.u.assignments == c.t.assignments[g := c.u.assignments[g]][id := c.u.assignments[id]]
    ensures AssignmentsLawful(c)
  {
    hide MayTakeOver, NobodyElse;
  }

  lemma OrderHanded(c: Change, h: Id)
    requires TakesOver(c, h) && c.u.history == c.t.history
    ensures OrderLawful(c)
  {
  }

  lemma AnswerConducts(t: Trip, h: Id, who: Actor, now: Time, action: HandoverAction, fleet: Registry, id: Id, taken: bool)
    requires h in t.handovers && who.role != Client
    ensures Conducts(t, Answer(t, h, who, now, action, fleet, id, taken), Some(who), now, fleet)
  {
    hide Answer, Lawful;
    if action == AcceptHandover { TakeOverConducts(t, h, who, now, fleet, id, taken); }
    else { ReplyConducts(t, h, who, now, action, fleet, id, taken); }
  }

  // ---- Every step ------------------------------------------------------------------------------------------------

  lemma OrderCommandsConduct(s: State, o: Id, e: Event, v: Verdict)
    requires o in s.db.orders && Target(s.db, e.command) == Some(o) && Precheck(e.command, e.now).None?
    requires v == Decide(s.db, o, e) && AboutOrder(e.command)
    ensures Conducts(TripOf(s.db, o), v, ActorOf(e.command), e.now, e.fleet, SaidBy(e.command))
  {
    hide Conducts, EditDraft, SetDetails, Submit, Cancel, Offer, AssignmentTaken, TripOf;
    var t, now, fleet := TripOf(s.db, o), e.now, e.fleet;
    match e.command {
      case UpdateDraftOrder(who, _, change, route) => EditDraftConducts(t, who, change, route, now, fleet);
      case SetTransportDetails(who, _, packages, _, parties) =>
        DetailsConduct(t, who, packages, PartyObjection(who, t.order.createdBy, parties, fleet), now, fleet);
      case SubmitOrder(who, _, route) => SubmitConducts(t, who, now, route, fleet);
      case CancelOrder(who, _, reason) =>
        CancelConducts(t, who, now, if reason.Some? then Some(Code(reason.value)) else None, fleet);
      case CreateAssignment(who, _, offer, stored, id) =>
        OfferConducts(t, who, now, offer, fleet, stored, id,
                      AssignmentTaken(s.db, o, id, offer.driver, offer.vehicle, offer.plannedFrom, offer.plannedTo));
    }
  }

  lemma AssignmentCommandsConduct(s: State, o: Id, e: Event, v: Verdict)
    requires o in s.db.orders && Target(s.db, e.command) == Some(o) && Precheck(e.command, e.now).None?
    requires v == Decide(s.db, o, e) && AboutAssignment(e.command)
    ensures Conducts(TripOf(s.db, o), v, ActorOf(e.command), e.now, e.fleet, SaidBy(e.command))
  {
    hide Conducts, Accept, Reject, Expire, Start, Arrive, Complete;
    var t, now, fleet := TripOf(s.db, o), e.now, e.fleet;
    match e.command {
      case AcceptAssignment(who, a) => AcceptConducts(t, a, who, now, fleet);
      case RejectAssignment(who, a) => RejectConducts(t, a, who, now, fleet);
      case ExpireAssignment(a) => ExpireConducts(t, a, now, fleet);
      case StartAssignment(who, a) => StartConducts(t, a, who, now, fleet);
      case ArriveAssignment(who, a) => ArriveConducts(t, a, who, now, fleet);
      case CompleteAssignment(who, a, completion) => CompleteConducts(t, a, who, now, completion, fleet);
    }
  }

  lemma RecordsConduct(s: State, o: Id, e: Event, v: Verdict)
    requires Inv(s) && o in s.db.orders && Target(s.db, e.command) == Some(o) && Precheck(e.command, e.now).None?
    requires v == Decide(s.db, o, e) && !AboutOrder(e.command) && !AboutAssignment(e.command)
    ensures Conducts(TripOf(s.db, o), v, ActorOf(e.command), e.now, e.fleet, SaidBy(e.command))
  {
    hide Inv, Conducts, Operate, Report, Resolve, Acknowledge, Invite, Answer, AssignmentTaken, OperationTaken, OneOpen, TripOf;
    SoundFacts(s, o);
    var db, t, now, fleet := s.db, TripOf(s.db, o), e.now, e.fleet;
    match e.command {
      case CreateWarehouseOperation(who, _, op, id, incident) =>
        OperateConducts(t, who, now, op, fleet, op.assignment.Some? && op.assignment.value in db.assignments,
                        id, OperationTaken(db, id), incident, incident in db.incidents);
      case CreateOrderIncident(who, _, report, id) => ReportConducts(t, who, now, report, fleet, id, id in db.incidents);
      case ResolveOrderIncident(who, i, resolution) =>
        OwnIncident(db, i);
        ResolveConducts(t, i, who, now, resolution, fleet);
      case CreateDeliveryReceipt(who, _, receipt, incident) =>
        AcknowledgeConducts(t, who, now, receipt, fleet, receipt.assignment in db.assignments, incident, incident in db.incidents);
      case CreateTripHandover(who, _, invitation, id) => InviteConducts(t, who, now, invitation, fleet, id, id in db.handovers);
      case UpdateTripHandover(who, h, action, id) =>
        OwnHandover(db, h);
        AnswerConducts(t, h, who, now, action, fleet, id,
                       AssignmentTaken(db, o, id, t.handovers[h].driver, t.handovers[h].vehicle, now, t.handovers[h].plannedTo));
    }
  }

  lemma UnchangedIsLawful(c: Change)
    requires c.u == c.t
    ensures Lawful(c)
  {
    hide AssignmentsLawful, HandoversLawful, JournalLawful, ReceiptLawful, IncidentsLawful, OrderLawful;
    AssignmentsStay(c);
    HandoversStay(c);
    RecordsStay(c);
    OrderStays(c);
  }

  // In every state, whatever the command: each row that changes does so by one of the transitions above.
  lemma EveryStepIsLawful(s: State, e: Event, p: Id)
    requires Inv(s) && Enabled(s, e) && p in s.db.orders
    ensures p in Step(s, e).db.orders
    ensures Lawful(Change(TripOf(s.db, p), TripOf(Step(s, e).db, p), ActorOf(e.command), e.now, e.fleet, SaidBy(e.command)))
  {
    hide Inv, Enabled, Step, TripOf, Lawful, Decide, Target, Precheck, Quiet, Strands, Spares;
    var v := StepVerdict(s, e, p);
    var c := Change(TripOf(s.db, p), TripOf(Step(s, e).db, p), ActorOf(e.command), e.now, e.fleet, SaidBy(e.command));
    if v.Refuse? {
      UnchangedIsLawful(c);
    } else if AboutOrder(e.command) {
      OrderCommandsConduct(s, p, e, v);
    } else if AboutAssignment(e.command) {
      AssignmentCommandsConduct(s, p, e, v);
    } else {
      RecordsConduct(s, p, e, v);
    }
  }

  // ---- In terms of the tables -------------------------------------------------------------------------------------

  lemma HandoverOf(s: State, e: Event, h: Id)
    requires Inv(s) && Enabled(s, e) && h in s.db.handovers
    ensures var p := s.db.handovers[h].order;
            && p in s.db.orders && h in TripOf(s.db, p).handovers && TripOf(s.db, p).handovers[h] == s.db.handovers[h]
            && p in Step(s, e).db.orders && h in Step(s, e).db.handovers
            && h in TripOf(Step(s, e).db, p).handovers && TripOf(Step(s, e).db, p).handovers[h] == Step(s, e).db.handovers[h]
  {
    hide Inv, Enabled, Step, Lawful;
    RowWrites.HasReferences(s);
    var p := s.db.handovers[h].order;
    EveryStepIsLawful(s, e, p);
    var c := Change(TripOf(s.db, p), TripOf(Step(s, e).db, p), ActorOf(e.command), e.now, e.fleet, SaidBy(e.command));
    assert HandoversLawful(c) by { LawfulParts(c); }
    hide HandoverMoves, HandoverEnters;
  }

  lemma LawfulParts(c: Change)
    requires Lawful(c)
    ensures AssignmentsLawful(c) && HandoversLawful(c) && JournalLawful(c) && ReceiptLawful(c) && IncidentsLawful(c) && OrderLawful(c)
  {
    hide AssignmentsLawful, HandoversLawful, JournalLawful, ReceiptLawful, IncidentsLawful, OrderLawful;
  }

  // Custody passes from hand to hand: whoever steps in lets the other confirm first, and nobody else
  // can do either.
  lemma HandoverNeedsBoth(s: State, e: Event, h: Id)
    requires Inv(s) && Enabled(s, e) && h in s.db.handovers
    ensures h in Step(s, e).db.handovers && s.db.handovers[h].previous in s.db.assignments
    ensures var g, y, fleet := s.db.handovers[h], Step(s, e).db.handovers[h], e.fleet;
            && (g.outgoingConfirmedAt.None? && y.outgoingConfirmedAt.Some? ==>
                  && ActorOf(e.command).Some? && ActorOf(e.command).value.role == DriverRole
                  && s.db.assignments[g.previous].driver in fleet.drivers
                  && ActorOf(e.command).value.user == fleet.drivers[s.db.assignments[g.previous].driver].user)
            && (g.status != HandoverCompleted && y.status == HandoverCompleted ==>
                  && ActorOf(e.command).Some? && ActorOf(e.command).value.role == DriverRole
                  && g.driver in fleet.drivers && ActorOf(e.command).value.user == fleet.drivers[g.driver].user
                  && g.outgoingConfirmedAt.Some? && e.now < g.expiresAt)
  {
    hide Inv, Enabled, Step, Lawful, HandoverPassesOn;
    HandoverOf(s, e, h);
    var p := s.db.handovers[h].order;
    EveryStepIsLawful(s, e, p);
    var c := Change(TripOf(s.db, p), TripOf(Step(s, e).db, p), ActorOf(e.command), e.now, e.fleet, SaidBy(e.command));
    InvitedBefore(s, h);
    HandoverMeans(c, h);
    assert HandoverPassesOn(c, h);
    InTables(s.db, h);
    hide TripOf;
    Unfolded(c, h);
  }

  lemma InTables(db: Tables, h: Id)
    requires h in db.handovers && db.handovers[h].order in db.orders
    requires db.handovers[h].previous in TripOf(db, db.handovers[h].order).assignments
    ensures var t, a := TripOf(db, db.handovers[h].order), db.handovers[h].previous;
            a in db.assignments && t.assignments[a] == db.assignments[a]
  {
  }

  // The two answers that pass custody on, and whose they are.
  ghost predicate HandoverPassesOn(c: Change, h: Id) {
    h in c.t.handovers && h in c.u.handovers && c.t.handovers[h].previous in c.t.assignments
    && var g, y := c.t.handovers[h], c.u.handovers[h];
       && (g.outgoingConfirmedAt.None? && y.outgoingConfirmedAt.Some? ==>
             c.actor.Some? && Drives(c.actor.value, c.t.assignments[g.previous].driver, c.fleet))
       && (g.status != HandoverCompleted && y.status == HandoverCompleted ==>
             c.actor.Some? && Drives(c.actor.value, g.driver, c.fleet) && g.outgoingConfirmedAt.Some? && c.now < g.expiresAt)
  }

  lemma HandoverMeans(c: Change, h: Id)
    requires Lawful(c) && h in c.t.handovers && c.t.handovers[h].previous in c.t.assignments
    ensures HandoverPassesOn(c, h)
  {
    hide AssignmentsLawful, JournalLawful, ReceiptLawful, IncidentsLawful, OrderLawful, HandoverEnters, Suited, Known;
  }

  lemma Unfolded(c: Change, h: Id)
    requires HandoverPassesOn(c, h)
    ensures h in c.t.handovers && h in c.u.handovers && c.t.handovers[h].previous in c.t.assignments
    ensures var g, y := c.t.handovers[h], c.u.handovers[h];
            && (g.outgoingConfirmedAt.None? && y.outgoingConfirmedAt.Some? ==>
                  && c.actor.Some? && c.actor.value.role == DriverRole && c.t.assignments[g.previous].driver in c.fleet.drivers
                  && c.actor.value.user == c.fleet.drivers[c.t.assignments[g.previous].driver].user)
            && (g.status != HandoverCompleted && y.status == HandoverCompleted ==>
                  && c.actor.Some? && c.actor.value.role == DriverRole && g.driver in c.fleet.drivers
                  && c.actor.value.user == c.fleet.drivers[g.driver].user && g.outgoingConfirmedAt.Some? && c.now < g.expiresAt)
  {
  }

  lemma InvitedBefore(s: State, h: Id)
    requires Inv(s) && h in s.db.handovers
    ensures s.db.handovers[h].previous in s.db.assignments
    ensures s.db.handovers[h].order in s.db.orders && s.db.handovers[h].previous in TripOf(s.db, s.db.handovers[h].order).assignments
  {
    hide Inv;
    RowWrites.HasReferences(s);
    var p := s.db.handovers[h].order;
    SoundOf(s, p);
    SoundRowsOwned(TripOf(s.db, p), s.clock);
    assert h in TripOf(s.db, p).handovers;
  }

  // Whoever is newly offered, newly accepted or newly on the road is fit for the whole window.
  lemma CrewsAreSuited(s: State, e: Event, a: Id)
    requires Inv(s) && Enabled(s, e) && a in Step(s, e).db.assignments
    ensures var x := Step(s, e).db.assignments[a];
            && x.order in s.db.orders
            && (a !in s.db.assignments || (s.db.assignments[a].status == Pending && x.status == Accepted) ==>
                  Suited(s.db.orders[x.order], x.driver, x.vehicle, x.plannedFrom, x.plannedTo, e.fleet))
  {
    hide Inv, Enabled, Step, Lawful, Suited, HandoversLawful, JournalLawful, ReceiptLawful, IncidentsLawful, OrderLawful, MayReplace, MayCancel;
    RowWrites.HasReferences(Step(s, e)) by { StepKeeps(s, e); }
    var p := Step(s, e).db.assignments[a].order;
    assert a in TripOf(Step(s, e).db, p).assignments;
    if p !in s.db.orders {
      NewOrders(s, e, p);
      assert false;
    }
    EveryStepIsLawful(s, e, p);
    var c := Change(TripOf(s.db, p), TripOf(Step(s, e).db, p), ActorOf(e.command), e.now, e.fleet, SaidBy(e.command));
    LawfulParts(c);
  }

  // ---- A command that succeeds has done what it was asked ------------------------------------------------------

  ghost predicate OrderAsAsked(t: Trip, u: Trip, c: Command, now: Time) {
    match c
    case UpdateDraftOrder(_, _, change, _) =>
      u.order == t.order.(weight := if change.weight.Some? then change.weight.value else t.order.weight,
                          volume := if change.volume.Some? then change.volume.value else t.order.volume,
                          pickupFrom := if change.pickupFrom.Some? then change.pickupFrom else t.order.pickupFrom,
                          pickupTo := if change.pickupTo.Some? then change.pickupTo else t.order.pickupTo, priced := true)
    case SetTransportDetails(_, _, packages, _, _) => packages >= 0 && u.order == t.order.(policy := 1, declared := Some(packages))
    case SubmitOrder(_, _, _) => u.order == t.order.(status := Ready, submittedAt := Some(now))
    case CancelOrder(_, _, _) => u.order == t.order.(status := Cancelled, cancelledAt := Some(now))
    case CreateAssignment(_, _, offer, _, id) =>
      id in u.assignments && id !in t.assignments && u.assignments[id].status == Pending
      && u.assignments[id].driver == offer.driver && u.assignments[id].vehicle == offer.vehicle
      && u.assignments[id].plannedFrom == offer.plannedFrom && u.assignments[id].plannedTo == offer.plannedTo
      && (forall a :: a in t.assignments && Some(a) != offer.supersedes ==> a in u.assignments && u.assignments[a] == t.assignments[a])
      && (offer.supersedes.Some? ==> offer.supersedes.value in u.assignments && u.assignments[offer.supersedes.value].status == Released)
    case _ => false
  }

  ghost predicate AssignmentAsAsked(t: Trip, u: Trip, c: Command, now: Time)
    requires AboutAssignment(c)
  {
    var a := c.assignment;
    a in t.assignments && a in u.assignments && u.assignments == t.assignments[a := u.assignments[a]]
    && match c
       case AcceptAssignment(_, _) => u.assignments[a].status == Accepted
       case RejectAssignment(_, _) => u.assignments[a].status == Rejected
       case ExpireAssignment(_) =>
         u.assignments[a].status
         == if t.assignments[a].status == Pending && t.assignments[a].offerExpiresAt <= now then Expired else t.assignments[a].status
       case StartAssignment(_, _) => u.assignments[a].status == AssignmentStatus.Active && u.order.status == InTransit
       case ArriveAssignment(_, _) => u.assignments == t.assignments && u.order.status == Arrived
       case CompleteAssignment(_, _, _) => u.assignments[a].status == AssignmentStatus.Completed
  }

  ghost predicate RecordAsAsked(t: Trip, u: Trip, c: Command, now: Time) {
    match c
    case CreateWarehouseOperation(_, o, op, id, _) =>
      var k := OpKey(o, op.kind, op.assignment);
      k !in t.operations && k in u.operations && u.operations[k].id == id && u.operations[k].packages == op.packages
    case CreateOrderIncident(_, _, report, id) =>
      id !in t.incidents && id in u.incidents
      && var i := u.incidents[id];
         i.cause == Reported && i.kind == report.kind
         && (if report.expected.Some? then i.expected.Some? && i.expected.value == report.expected.value else i.expected.None?)
         && (if report.actual.Some? then i.actual.Some? && i.actual.value == report.actual.value else i.actual.None?)
    case ResolveOrderIncident(_, i, resolution) =>
      i in t.incidents && i in u.incidents && !u.incidents[i].open && u.incidents[i].resolution == resolution.resolution
    case CreateDeliveryReceipt(_, _, receipt, _) =>
      u.receipt.Some? && u.receipt.value.assignment == receipt.assignment && u.receipt.value.recipient == receipt.recipient
      && u.receipt.value.packages == receipt.packages
      && u.receipt.value.receivedAt == (if receipt.receivedAt.Some? then receipt.receivedAt.value else now)
    case CreateTripHandover(_, _, invitation, id) =>
      id !in t.handovers && id in u.handovers && u.handovers[id].status == HandoverPending
      && u.handovers[id].driver == invitation.driver && u.handovers[id].vehicle == invitation.vehicle
      && u.handovers[id].plannedTo == invitation.plannedTo
    case UpdateTripHandover(_, h, action, id) =>
      h in t.handovers && h in u.handovers && u.handovers == t.handovers[h := u.handovers[h]]
      && (match action
          case CancelHandover => u.handovers[h].status == HandoverCancelled
          case ConfirmRelease => u.handovers[h].outgoingConfirmedAt == Some(now)
          case AcceptHandover => u.handovers[h].status == HandoverCompleted && u.handovers[h].next == Some(id)
          case UnknownAction => false)
    case _ => false
  }

  lemma OrdersDoneAsAsked(s: State, o: Id, e: Event)
    requires Inv(s) && o in s.db.orders && Target(s.db, e.command) == Some(o) && Precheck(e.command, e.now).None? && AboutOrder(e.command)
    requires Succeeds(Decide(s.db, o, e))
    ensures OrderAsAsked(TripOf(s.db, o), Decide(s.db, o, e).trip, e.command, e.now)
  {
    hide Inv, TripOf, AssignmentTaken, Objection, Recommended, EffectiveIn, PartyObjection;
  }

  lemma AnsweredAsAsked(t: Trip, a: Id, who: Actor, now: Time, fleet: Registry)
    requires a in t.assignments
    ensures var v := Accept(t, a, who, now, fleet); Succeeds(v) ==> AssignmentAsAsked(t, v.trip, AcceptAssignment(who, a), now)
    ensures var v := Reject(t, a, who, now, fleet); Succeeds(v) ==> AssignmentAsAsked(t, v.trip, RejectAssignment(who, a), now)
    ensures var v := Expire(t, a, now, fleet); Succeeds(v) ==> AssignmentAsAsked(t, v.trip, ExpireAssignment(a), now)
  {
    hide Objection;
  }

  lemma TravelledAsAsked(t: Trip, a: Id, who: Actor, now: Time, request: CompleteRequest, fleet: Registry)
    requires a in t.assignments
    ensures var v := Start(t, a, who, now, fleet); Succeeds(v) ==> AssignmentAsAsked(t, v.trip, StartAssignment(who, a), now)
    ensures var v := Arrive(t, a, who, now, fleet); Succeeds(v) ==> AssignmentAsAsked(t, v.trip, ArriveAssignment(who, a), now)
    ensures var v := Complete(t, a, who, now, request, fleet);
            Succeeds(v) ==> AssignmentAsAsked(t, v.trip, CompleteAssignment(who, a, request), now)
  {
    hide HasOpenIncident, Performed;
  }

  lemma AssignmentsDoneAsAsked(s: State, o: Id, e: Event)
    requires o in s.db.orders && Target(s.db, e.command) == Some(o) && Precheck(e.command, e.now).None? && AboutAssignment(e.command)
    requires Succeeds(Decide(s.db, o, e))
    ensures AssignmentAsAsked(TripOf(s.db, o), Decide(s.db, o, e).trip, e.command, e.now)
  {
    hide TripOf, Accept, Reject, Expire, Start, Arrive, Complete, AssignmentAsAsked;
    var t, a := TripOf(s.db, o), e.command.assignment;
    OwnAssignment(s.db, a);
    match e.command {
      case AcceptAssignment(who, _) => AnsweredAsAsked(t, a, who, e.now, e.fleet);
      case RejectAssignment(who, _) => AnsweredAsAsked(t, a, who, e.now, e.fleet);
      case ExpireAssignment(_) => AnsweredAsAsked(t, a, Actor(DriverRole, 0, None), e.now, e.fleet);
      case StartAssignment(who, _) => TravelledAsAsked(t, a, who, e.now, CompleteRequest(None, true), e.fleet);
      case ArriveAssignment(who, _) => TravelledAsAsked(t, a, who, e.now, CompleteRequest(None, true), e.fleet);
      case CompleteAssignment(who, _, completion) => TravelledAsAsked(t, a, who, e.now, completion, e.fleet);
    }
  }

  lemma OperationsDoneAsAsked(s: State, o: Id, e: Event)
    requires Inv(s) && o in s.db.orders && Target(s.db, e.command) == Some(o) && Precheck(e.command, e.now).None?
    requires e.command.CreateWarehouseOperation? && Succeeds(Decide(s.db, o, e))
    ensures RecordAsAsked(TripOf(s.db, o), Decide(s.db, o, e).trip, e.command, e.now)
  {
    hide Inv, TripOf, Operate, OperationTaken, OneOpen;
    SoundFacts(s, o);
    var c, op, db := e.command, e.command.operation, s.db;
    OperationShape(TripOf(db, o), c.who, e.now, op, e.fleet, op.assignment.Some? && op.assignment.value in db.assignments,
                   c.id, OperationTaken(db, c.id), c.incident, c.incident in db.incidents);
  }

  lemma ReportedAsAsked(t: Trip, who: Actor, now: Time, request: IncidentRequest, fleet: Registry, id: Id, taken: bool)
    requires NonNegative(request.expected) && NonNegative(request.actual)
    ensures var v := Report(t, who, now, request, fleet, id, taken);
            Succeeds(v) ==> RecordAsAsked(t, v.trip, CreateOrderIncident(who, t.order.id, request, id), now)
  {
    hide Server;
  }

  lemma ResolvedAsAsked(t: Trip, i: Id, who: Actor, now: Time, request: ResolveRequest)
    requires i in t.incidents
    ensures var v := Resolve(t, i, who, now, request);
            Succeeds(v) ==> RecordAsAsked(t, v.trip, ResolveOrderIncident(who, i, request), now)
  {
    hide Settles;
  }

  lemma RepliedAsAsked(t: Trip, h: Id, who: Actor, now: Time, action: HandoverAction, fleet: Registry, id: Id, taken: bool)
    requires h in t.handovers && who.role != Client
    ensures var v := Answer(t, h, who, now, action, fleet, id, taken);
            Succeeds(v) ==> RecordAsAsked(t, v.trip, UpdateTripHandover(who, h, action, id), now)
  {
    var v := Answer(t, h, who, now, action, fleet, id, taken);
    if Succeeds(v) && action == AcceptHandover { TakeOverShape(t, h, who, now, fleet, id, taken); }
    hide TakeOver;
  }

  lemma RecordsDoneAsAsked(s: State, o: Id, e: Event)
    requires Inv(s) && o in s.db.orders && Target(s.db, e.command) == Some(o) && Precheck(e.command, e.now).None?
    requires !AboutOrder(e.command) && !AboutAssignment(e.command) && !e.command.CreateWarehouseOperation? && Succeeds(Decide(s.db, o, e))
    ensures RecordAsAsked(TripOf(s.db, o), Decide(s.db, o, e).trip, e.command, e.now)
  {
    hide Inv, TripOf, AssignmentTaken, Report, Resolve, Acknowledge, Invite, Answer, OneOpen;
    SoundFacts(s, o);
    var db, t, now, fleet := s.db, TripOf(s.db, o), e.now, e.fleet;
    match e.command {
      case CreateOrderIncident(who, _, report, id) => ReportedAsAsked(t, who, now, report, fleet, id, id in db.incidents);
      case ResolveOrderIncident(who, i, resolution) =>
        OwnIncident(db, i);
        ResolvedAsAsked(t, i, who, now, resolution);
      case CreateDeliveryReceipt(who, _, receipt, incident) =>
        SignedShape(t, who, now, receipt, fleet, receipt.assignment in db.assignments, incident, incident in db.incidents);
      case CreateTripHandover(who, _, invitation, id) => InviteShape(t, who, now, invitation, fleet, id, id in db.handovers);
      case UpdateTripHandover(who, h, action, id) =>
        OwnHandover(db, h);
        RepliedAsAsked(t, h, who, now, action, fleet, id,
                       AssignmentTaken(db, o, id, t.handovers[h].driver, t.handovers[h].vehicle, now, t.handovers[h].plannedTo));
    }
  }

  // Whatever the state, a command that succeeds has made the change it names.
  lemma DoneAsAsked(s: State, e: Event, o: Id)
    requires Inv(s) && Enabled(s, e) && Target(s.db, e.command) == Some(o) && o in s.db.orders && Execute(s.db, e).reply.None?
    requires !e.command.CreateOrder? && !e.command.FinishRelease?
    ensures o in Step(s, e).db.orders
    ensures var t, u := TripOf(s.db, o), TripOf(Step(s, e).db, o);
            if AboutOrder(e.command) then OrderAsAsked(t, u, e.command, e.now)
            else if AboutAssignment(e.command) then AssignmentAsAsked(t, u, e.command, e.now)
            else RecordAsAsked(t, u, e.command, e.now)
  {
    hide Inv, Enabled, Execute, Decide, Target, Precheck, TripOf, Succeeds, OrderAsAsked, AssignmentAsAsked, RecordAsAsked, Deciding;
    ReplyIs(s.db, e);
    OtherOrdersStay(s, e, o, o);
    SettledExecution(s.db, e, o);
    StepKeepsOrders(s, e);
    SuccessCommits(Decide(s.db, o, e));
    if AboutOrder(e.command) { OrdersDoneAsAsked(s, o, e); }
    else if AboutAssignment(e.command) { AssignmentsDoneAsAsked(s, o, e); }
    else if e.command.CreateWarehouseOperation? { OperationsDoneAsAsked(s, o, e); }
    else { RecordsDoneAsAsked(s, o, e); }
  }

  lemma SuccessCommits(v: Verdict)
    requires Succeeds(v)
    ensures v.Commit?
  {
  }

  // ---- New orders --------------------------------------------------------------------------------------------------

  // An order appears as a draft of its creator's, as asked for and on nobody's hands.
  lemma OrdersAppearAsAsked(s: State, e: Event, p: Id)
    requires Inv(s) && Enabled(s, e) && p !in s.db.orders && p in Step(s, e).db.orders
    ensures e.command.CreateOrder? && MayCreate(e.command.who, e.command.draft, e.fleet)
    ensures var t, who, draft := TripOf(Step(s, e).db, p), e.command.who, e.command.draft;
            && t.order.addressed == (if draft.destination.None? then draft.toAddress else t.order.addressed)
            && t == Trip(Order(p, Some(who.user), None, draft.origin, draft.destination,
                               if draft.weight.Some? then draft.weight.value else 0.0, if draft.volume.Some? then draft.volume.value else 0.0,
                               t.order.addressed, true, Draft, draft.pickupFrom, draft.pickupTo, 1, None, None, None, None, None, None, None),
                         map[], map[], map[], None, map[], [])
  {
    hide Inv, Enabled, Step, TripOf;
    NewOrders(s, e, p);
    OrdersAreCreated(s, e, p);
    LoggedOrdersExist(s, p);
    NobodysRows(s.db, p);
    CreatorsOnly(s, e, p);
    NothingFiled(s.db, p, TripOf(Step(s, e).db, p).order);
  }

  lemma NothingFiled(db: Tables, p: Id, order: Order)
    requires Referential(db) && p !in db.orders
    ensures var t := TripOf(db.(orders := db.orders[p := order]), p);
            t.operations == map[] && t.incidents == map[] && t.handovers == map[] && t.receipt.None?
  {
    NobodysRows(db, p);
  }

  lemma CreatorsOnly(s: State, e: Event, p: Id)
    requires Inv(s) && Enabled(s, e) && e.command.CreateOrder? && p !in s.db.orders && p in Step(s, e).db.orders
    ensures MayCreate(e.command.who, e.command.draft, e.fleet)
  {
    hide Inv, Enabled;
  }
}
