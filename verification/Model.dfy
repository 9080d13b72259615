// Rows, statuses and requests of the order service, and the order status graph.
module Model {
  type Id = nat

  // Instants are whole microseconds since the epoch, the precision PostgreSQL keeps.
  type Time = int

  const MINUTE: Time := 60_000_000
  const DAY: Time := 1440 * MINUTE
  const OFFER_LIFETIME: Time := 15 * MINUTE

  datatype Option<+T> = None | Some(value: T)

  datatype Error =
    | Forbidden | NotFound | StorageFailure
    | InvalidOrderInput | InvalidOrderTransition | InvalidTimeWindow
    | AssignmentStale | AssignmentExpired | ResourceAlreadyReserved
    | DriverNotEligible | DriverLicenseExpired | DriverOutsideShift
    | VehicleNotOperational | VehicleDocumentInvalid | VehicleCapacityExceeded
    | TransportDetailsRequired | DeliveryReceiptRequired | DeliveryReceiptConflict
    | IncidentOpen | IncidentStale | IncidentResolutionInvalid
    | WarehouseOperationRequired | WarehouseOperationConflict | WarehouseInactive | CounterpartyArchived

  datatype OrderStatus = Draft | Ready | Assigned | InTransit | Arrived | Completed | Cancelled

  predicate CanTransition(from: OrderStatus, to: OrderStatus) {
    match from
    case Draft => to == Ready || to == Cancelled
    case Ready => to == Assigned || to == Cancelled
    case Assigned => to == Ready || to == InTransit || to == Cancelled
    case InTransit => to == Arrived
    case Arrived => to == OrderStatus.Completed
    case Completed => false
    case Cancelled => false
  }

  // ---- Actors ---------------------------------------------------------------------

  datatype Role = Client | Manager | DriverRole | Admin

  // `warehouse` is the answer of managerWarehouseID: None when the user runs no warehouse.
  datatype Actor = Actor(role: Role, user: Id, warehouse: Option<Id>)

  predicate Runs(who: Actor, warehouse: Option<Id>) {
    who.warehouse.Some? && warehouse == who.warehouse
  }

  // ---- Fleet and warehouse registry: administered elsewhere, read by every command -------

  datatype Paper = Paper(valid: bool, validUntil: int)  // valid_until is a calendar day number (UTC)
  datatype Shift = Shift(startsAt: Time, endsAt: Time)
  datatype DriverRow = DriverRow(
    user: Id, available: bool, licenseExpiry: int, licenses: seq<Paper>, shifts: seq<Shift>, rating: real)
  datatype VehicleRow = VehicleRow(
    available: bool, registrations: seq<Paper>, capacityKg: real, capacityM3: real)
  // `located`: the coordinates are known; `addressed`: the address is not empty.
  datatype WarehouseRecord = WarehouseRecord(active: bool, located: bool, addressed: bool)
  datatype Party = Party(owner: Id, shared: bool, active: bool, individual: bool)
  datatype Registry = Registry(
    drivers: map<Id, DriverRow>, vehicles: map<Id, VehicleRow>, warehouses: map<Id, WarehouseRecord>, parties: map<Id, Party>)

  // ---- Rows ------------------------------------------------------------------------

  datatype Order = Order(
    id: Id, createdBy: Option<Id>, driver: Option<Id>, origin: Option<Id>, destination: Option<Id>,
    weight: real, volume: real, addressed: bool, priced: bool, status: OrderStatus,
    pickupFrom: Option<Time>, pickupTo: Option<Time>,
    policy: nat, declared: Option<nat>,
    submittedAt: Option<Time>, assignedAt: Option<Time>, startedAt: Option<Time>,
    arrivedAt: Option<Time>, deliveredAt: Option<Time>, cancelledAt: Option<Time>)

  datatype AssignmentStatus = Pending | Accepted | Active | Rejected | Released | Expired | Completed

  datatype ReleaseReason = OrderCancelled | Reassigned | LoadingUndone | InTransitHandover

  datatype Assignment = Assignment(
    order: Id, driver: Id, vehicle: Id, status: AssignmentStatus,
    plannedFrom: Time, plannedTo: Time, createdBy: Id, assignedAt: Time, offerExpiresAt: Time,
    acceptedAt: Option<Time>, rejectedAt: Option<Time>, releasedAt: Option<Time>,
    releaseReason: Option<ReleaseReason>, startedAt: Option<Time>, completedAt: Option<Time>)

  predicate Open(a: Assignment) {
    a.status == Pending || a.status == Accepted || a.status == Active
  }

  datatype OperationKind = Receive | Load | Unload | UndoLoad | ReturnToSender

  // UNIQUE NULLS NOT DISTINCT (order_id, operation_type, assignment_id): the key of the journal.
  datatype OpKey = OpKey(order: Id, kind: OperationKind, assignment: Option<Id>)
  datatype Operation = Operation(id: Id, warehouse: Id, packages: nat, recordedBy: Id, at: Time)

  datatype IncidentKind = VehicleBreakdown | CargoDamage | QuantityDiscrepancy | RecipientRefusal | OtherIncident
  datatype Resolution = Unresolved | AcceptDiscrepancy | AcceptWithRemarks | Remediated | Repaired
                      | ResourcesReplaced | RecipientAccepted

  // What an incident was raised about: `source_operation_id`, or the receipt named by its
  // description, or a person's report.
  datatype Cause = Reported | OfOperation(operation: Id) | OfReceipt

  datatype Incident = Incident(
    order: Id, assignment: Option<Id>, warehouse: Option<Id>, cause: Cause, kind: IncidentKind,
    expected: Option<nat>, actual: Option<nat>, open: bool, resolution: Resolution,
    reportedBy: Id, reportedAt: Time, resolvedBy: Option<Id>, resolvedAt: Option<Time>)

  datatype Receipt = Receipt(
    assignment: Id, recipient: string, packages: nat, receivedAt: Time, recordedAt: Time, recordedBy: Id)

  datatype HandoverStatus = HandoverPending | HandoverCompleted | HandoverCancelled | HandoverExpired
  datatype Handover = Handover(
    order: Id, previous: Id, next: Option<Id>, driver: Id, vehicle: Id, createdBy: Id,
    plannedTo: Time, status: HandoverStatus, createdAt: Time, expiresAt: Time,
    outgoingConfirmedAt: Option<Time>, completedAt: Option<Time>)

  datatype StatusReason = Because(reason: ReleaseReason) | Code(text: string)
  datatype StatusChange = StatusChange(
    from: OrderStatus, to: OrderStatus, actor: Id, reason: Option<StatusReason>, at: Time)

  datatype ReleaseJob = ReleaseJob(order: Id, plannedFrom: Time, plannedTo: Time)

  // ---- Requests --------------------------------------------------------------------

  datatype Source = Manual | DispatchRecommendation | UnknownSource
  datatype Candidate = Candidate(id: Id, driver: Id, vehicle: Id)
  datatype StoredRecommendation = StoredRecommendation(
    submittedAt: Time, createdAt: Time, candidates: seq<Candidate>)
  datatype OfferRequest = OfferRequest(
    driver: Id, vehicle: Id, plannedFrom: Time, plannedTo: Time, supersedes: Option<Id>,
    source: Source, recommendation: Option<Id>, recommendationCreatedAt: Option<Time>)

  // `texts` says that every text field passes the length checks made before any table is read.
  datatype OperationRequest = OperationRequest(
    kind: OperationKind, assignment: Option<Id>, packages: int, texts: bool)
  datatype IncidentRequest = IncidentRequest(
    kind: IncidentKind, expected: Option<int>, actual: Option<int>, texts: bool)
  datatype ResolveRequest = ResolveRequest(resolution: Resolution, recipient: string, texts: bool)
  datatype ReceiptRequest = ReceiptRequest(
    assignment: Id, recipient: string, packages: int, receivedAt: Option<Time>, texts: bool)
  datatype HandoverRequest = HandoverRequest(driver: Id, vehicle: Id, plannedTo: Time, texts: bool)
  datatype HandoverAction = CancelHandover | ConfirmRelease | AcceptHandover | UnknownAction
  // `texts` says that the final recipient name and comment fit.
  datatype CompleteRequest = CompleteRequest(recipient: Option<string>, texts: bool)
  datatype Route = Route(complete: bool)
  // The endpoints, cargo and window of a new order; an end is a warehouse or an address.
  datatype DraftRequest = DraftRequest(
    origin: Option<Id>, destination: Option<Id>, fromAddress: bool, toAddress: bool,
    weight: Option<real>, volume: Option<real>, pickupFrom: Option<Time>, pickupTo: Option<Time>)
  datatype PartyRequest = PartyRequest(sender: Id, recipient: Id, carrier: Id)
  datatype DraftChange = DraftChange(
    described: bool, weight: Option<real>, volume: Option<real>, pickupFrom: Option<Time>, pickupTo: Option<Time>)
}
