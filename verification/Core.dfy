// The order service as a step system: one atomic step per command.
module Core {
  import opened Model
  import opened Eligibility
  import opened Trips
  import opened Soundness
  import opened Database

  // `done` remembers the release jobs the background worker has finished; it is no column, and
  // is kept so that no job can be lost or repeated unnoticed.
  datatype State = State(db: Tables, clock: Time, done: set<Id>)

  const INITIAL := State(EMPTY, 0, {})

  datatype Command =
    | CreateOrder(who: Actor, id: Id, draft: DraftRequest, plan: Option<Error>)
    | UpdateDraftOrder(who: Actor, order: Id, change: DraftChange, route: Option<Route>)
    | SetTransportDetails(who: Actor, order: Id, packages: int, texts: bool, parties: PartyRequest)
    | SubmitOrder(who: Actor, order: Id, route: Option<Route>)
    | CancelOrder(who: Actor, order: Id, reason: Option<string>)
    | CreateAssignment(who: Actor, order: Id, offer: OfferRequest, stored: Option<StoredRecommendation>, id: Id)
    | AcceptAssignment(who: Actor, assignment: Id)
    | RejectAssignment(who: Actor, assignment: Id)
    | ExpireAssignment(assignment: Id)
    | StartAssignment(who: Actor, assignment: Id)
    | ArriveAssignment(who: Actor, assignment: Id)
    | CompleteAssignment(who: Actor, assignment: Id, completion: CompleteRequest)
    | CreateWarehouseOperation(who: Actor, order: Id, operation: OperationRequest, id: Id, incident: Id)
    | CreateOrderIncident(who: Actor, order: Id, report: IncidentRequest, id: Id)
    | ResolveOrderIncident(who: Actor, incident: Id, resolution: ResolveRequest)
    | CreateDeliveryReceipt(who: Actor, order: Id, receipt: ReceiptRequest, incident: Id)
    | CreateTripHandover(who: Actor, order: Id, invitation: HandoverRequest, id: Id)
    | UpdateTripHandover(who: Actor, handover: Id, action: HandoverAction, id: Id)
    | FinishRelease(assignment: Id)

  datatype Event = Event(now: Time, fleet: Registry, command: Command)

  // ---- Checks made before any table is read ----------------------------------------------

  predicate Differ(n: Option<int>, m: Option<int>) { n.Some? && m.Some? && n.value != m.value }

  function Precheck(c: Command, now: Time): Option<Error> {
    match c
    case CreateOrder(who, _, _, _) => if who.role == DriverRole then Some(Forbidden) else None
    case UpdateDraftOrder(who, _, change, _) =>
      if who.role == DriverRole then Some(Forbidden)
      else if !change.described && change.weight.None? && change.volume.None?
              && change.pickupFrom.None? && change.pickupTo.None? then Some(InvalidOrderInput)
      else None
    case SetTransportDetails(who, _, packages, texts, _) =>
      if who.role == DriverRole then Some(Forbidden)
      else if !texts || packages < 1 then Some(InvalidOrderInput) else None
    case SubmitOrder(_, _, _) => None
    case CancelOrder(who, _, _) => if who.role == DriverRole then Some(Forbidden) else None
    case CreateAssignment(who, _, _, _, _) => if who.role != Manager && who.role != Admin then Some(Forbidden) else None
    case AcceptAssignment(who, _) => if who.role != DriverRole then Some(Forbidden) else None
    case RejectAssignment(who, _) => if who.role != DriverRole then Some(Forbidden) else None
    case ExpireAssignment(_) => None
    case StartAssignment(who, _) => if who.role != DriverRole then Some(Forbidden) else None
    case ArriveAssignment(who, _) => if who.role != DriverRole then Some(Forbidden) else None
    case CompleteAssignment(who, _, _) => if who.role == Client then Some(Forbidden) else None
    case CreateWarehouseOperation(who, _, op, _, _) =>
      if who.role != Manager && who.role != Admin then Some(Forbidden)
      else if op.packages < 0 || ((op.kind == Receive || op.kind == Load) && op.packages == 0) || !op.texts then
        Some(InvalidOrderInput)
      else None
    case CreateOrderIncident(_, _, report, _) =>
      if !report.texts || !NonNegative(report.expected) || !NonNegative(report.actual)
         || (report.kind == QuantityDiscrepancy && !Differ(report.expected, report.actual)) then Some(InvalidOrderInput)
      else None
    case ResolveOrderIncident(who, _, resolution) =>
      if who.role != Manager && who.role != Admin then Some(Forbidden)
      else if !resolution.texts then Some(InvalidOrderInput) else None
    case CreateDeliveryReceipt(who, _, receipt, _) =>
      if who.role == Client then Some(Forbidden)
      else if !receipt.texts || receipt.packages < 0
              || (receipt.receivedAt.Some? && receipt.receivedAt.value > now + 5 * MINUTE) then Some(InvalidOrderInput)
      else None
    case CreateTripHandover(who, _, invitation, _) =>
      if who.role != Manager && who.role != Admin then Some(Forbidden)
      else if !invitation.texts then Some(InvalidOrderInput)
      else if invitation.plannedTo <= now then Some(InvalidTimeWindow) else None
    case UpdateTripHandover(who, _, _, _) => if who.role == Client then Some(Forbidden) else None
    case FinishRelease(_) => None
  }

  // ---- Constraints that look across orders -------------------------------------------------

  // Half-open windows [from, to).
  predicate Overlap(a: Assignment, from: Time, to: Time) { a.plannedFrom < to && from < a.plannedTo }

  predicate Reserves(a: Assignment, driver: Id, vehicle: Id, from: Time, to: Time) {
    Open(a) && (a.driver == driver || a.vehicle == vehicle) && Overlap(a, from, to)
  }

  // Inserting this open row breaks the primary key or an exclusion constraint.
  predicate AssignmentTaken(db: Tables, o: Id, id: Id, driver: Id, vehicle: Id, from: Time, to: Time) {
    id in db.assignments
    || exists b :: b in db.assignments && db.assignments[b].order != o && Reserves(db.assignments[b], driver, vehicle, from, to)
  }

  predicate OperationTaken(db: Tables, id: Id) {
    exists k :: k in db.operations && db.operations[k].id == id
  }

  // ---- Steps -----------------------------------------------------------------------------------

  datatype Outcome = Outcome(db: Tables, reply: Option<Error>)

  function Settle(db: Tables, v: Verdict): Outcome {
    match v
    case Refuse(e) => Outcome(db, Some(e))
    case Commit(t, closed, reply) => Outcome(Save(db, t, closed), reply)
  }

  // The order whose rows the command reads and writes, when it exists.
  function Target(db: Tables, c: Command): Option<Id> {
    match c
    case CreateOrder(_, _, _, _) => None
    case FinishRelease(_) => None
    case AcceptAssignment(_, a) => OrderOfAssignment(db, a)
    case RejectAssignment(_, a) => OrderOfAssignment(db, a)
    case ExpireAssignment(a) => OrderOfAssignment(db, a)
    case StartAssignment(_, a) => OrderOfAssignment(db, a)
    case ArriveAssignment(_, a) => OrderOfAssignment(db, a)
    case CompleteAssignment(_, a, _) => OrderOfAssignment(db, a)
    case ResolveOrderIncident(_, i, _) =>
      if i in db.incidents && db.incidents[i].order in db.orders then Some(db.incidents[i].order) else None
    case UpdateTripHandover(_, h, _, _) =>
      if h in db.handovers && db.handovers[h].order in db.orders then Some(db.handovers[h].order) else None
    case _ => if c.order in db.orders then Some(c.order) else None
  }

  function OrderOfAssignment(db: Tables, a: Id): Option<Id> {
    if a in db.assignments && db.assignments[a].order in db.orders then Some(db.assignments[a].order) else None
  }

  // What the command decides about the order it is aimed at.
  ghost function Decide(db: Tables, o: Id, e: Event): Verdict
    requires o in db.orders && Target(db, e.command) == Some(o) && Precheck(e.command, e.now).None?
  {
    var t := TripOf(db, o);
    var now, fleet := e.now, e.fleet;
    match e.command
    case UpdateDraftOrder(who, _, change, route) => EditDraft(t, who, change, route)
    case SetTransportDetails(who, _, packages, _, parties) =>
      SetDetails(t, who, packages, PartyObjection(who, t.order.createdBy, parties, fleet))
    case SubmitOrder(who, _, route) => Submit(t, who, now, route)
    case CancelOrder(who, _, reason) =>
      Cancel(t, who, now, if reason.Some? then Some(Code(reason.value)) else None, fleet)
    case CreateAssignment(who, _, offer, stored, id) =>
      Offer(t, who, now, offer, fleet, stored, id,
            AssignmentTaken(db, o, id, offer.driver, offer.vehicle, offer.plannedFrom, offer.plannedTo))
    case AcceptAssignment(who, a) => Accept(t, a, who, now, fleet)
    case RejectAssignment(who, a) => Reject(t, a, who, now, fleet)
    case ExpireAssignment(a) => Expire(t, a, now, fleet)
    case StartAssignment(who, a) => Start(t, a, who, now, fleet)
    case ArriveAssignment(who, a) => Arrive(t, a, who, now, fleet)
    case CompleteAssignment(who, a, completion) => Complete(t, a, who, now, completion, fleet)
    case CreateWarehouseOperation(who, _, op, id, incident) =>
      Operate(t, who, now, op, fleet, op.assignment.Some? && op.assignment.value in db.assignments,
              id, OperationTaken(db, id), incident, incident in db.incidents)
    case CreateOrderIncident(who, _, report, id) => Report(t, who, now, report, fleet, id, id in db.incidents)
    case ResolveOrderIncident(who, i, resolution) => Resolve(t, i, who, now, resolution)
    case CreateDeliveryReceipt(who, _, receipt, incident) =>
      Acknowledge(t, who, now, receipt, fleet, receipt.assignment in db.assignments, incident, incident in db.incidents)
    case CreateTripHandover(who, _, invitation, id) => Invite(t, who, now, invitation, fleet, id, id in db.handovers)
    case UpdateTripHandover(who, h, action, id) =>
      var item := t.handovers[h];
      Answer(t, h, who, now, action, fleet, id,
             AssignmentTaken(db, o, id, item.driver, item.vehicle, now, item.plannedTo))
  }

  // An administrator's bad window is noticed before the order is looked up.
  function MissingTarget(c: Command, now: Time): Error {
    match c
    case CreateAssignment(who, _, offer, _, _) =>
      if who.role == Admin && (offer.plannedFrom >= offer.plannedTo || offer.plannedFrom < now) then InvalidTimeWindow else NotFound
    case _ => NotFound
  }

  ghost function Execute(db: Tables, e: Event): Outcome {
    var refusal := Precheck(e.command, e.now);
    if refusal.Some? then Outcome(db, refusal)
    else
      match e.command
      case CreateOrder(who, id, draft, plan) =>
        var objection := DraftObjection(who, draft, e.fleet);
        if objection.Some? then Outcome(db, objection)
        else if plan.Some? then Outcome(db, plan)
        else if id in db.orders then Outcome(db, Some(StorageFailure))
        else Outcome(db.(orders := db.orders[id := NewDraft(id, who, draft, e.fleet)]), None)
      case FinishRelease(a) => Outcome(db.(queue := db.queue - {a}), None)
      case _ =>
        var target := Target(db, e.command);
        if target.None? then Outcome(db, Some(MissingTarget(e.command, e.now)))
        else Settle(db, Decide(db, target.value, e))
  }

  // FinishRelease is the last page of a queued job; without the job there is nothing to finish.
  predicate Enabled(s: State, e: Event) {
    (if e.command.ExpireAssignment? then s.clock <= e.now else s.clock < e.now)
    && (e.command.FinishRelease? ==> e.command.assignment in s.db.queue)
  }

  ghost function Step(s: State, e: Event): State {
    State(Execute(s.db, e).db, e.now, if e.command.FinishRelease? then s.done + {e.command.assignment} else s.done)
  }

  // ---- The invariant --------------------------------------------------------------------------

  // No driver and no vehicle is reserved twice for overlapping windows.
  ghost predicate NoDoubleBooking(assignments: map<Id, Assignment>) {
    forall a, b :: a in assignments && b in assignments && a != b && Open(assignments[a]) ==>
      !Reserves(assignments[b], assignments[a].driver, assignments[a].vehicle, assignments[a].plannedFrom, assignments[a].plannedTo)
  }

  // The closed assignments are those queued for release and those already processed, each once.
  ghost predicate ReleasesKept(db: Tables, done: set<Id>) {
    && done !! db.queue.Keys
    && (forall a :: a in db.assignments && !Open(db.assignments[a]) <==> a in db.queue || a in done)
    && (forall a :: a in db.queue && a in db.assignments ==> db.queue[a] == JobOf(db.assignments[a]))
  }

  ghost predicate AllSound(db: Tables, clock: Time) {
    forall o :: o in db.orders ==> Sound(TripOf(db, o), clock)
  }

  ghost predicate Inv(s: State) {
    Referential(s.db) && AllSound(s.db, s.clock) && NoDoubleBooking(s.db.assignments) && ReleasesKept(s.db, s.done)
  }
}
