// One order with every row that names it, and what each command decides about it.
module Trips {
  import opened Model
  import opened Eligibility

  datatype Trip = Trip(
    order: Order,
    assignments: map<Id, Assignment>,
    operations: map<OpKey, Operation>,
    incidents: map<Id, Incident>,
    receipt: Option<Receipt>,
    handovers: map<Id, Handover>,
    history: seq<StatusChange>)

  // A refused command rolls back. A committed one may still answer with an error: an offer or
  // an invitation found expired is closed, and the caller is told so.
  datatype Verdict =
    | Refuse(error: Error)
    | Commit(trip: Trip, closed: set<Id>, reply: Option<Error>)

  function Done(t: Trip, closed: set<Id>): Verdict { Commit(t, closed, None) }

  // ---- Reading -----------------------------------------------------------------------

  predicate Touches(order: Order, warehouse: Option<Id>) {
    warehouse.Some? && (order.origin == warehouse || order.destination == warehouse)
  }

  predicate HasOpenIncident(t: Trip) {
    exists i :: i in t.incidents && t.incidents[i].open
  }

  function KeyOf(t: Trip, kind: OperationKind, assignment: Option<Id>): OpKey {
    OpKey(t.order.id, kind, assignment)
  }

  predicate Performed(t: Trip, kind: OperationKind, assignment: Option<Id>) {
    KeyOf(t, kind, assignment) in t.operations
  }

  type Journal = map<OpKey, Operation>

  // A load stays in the journal after undo_load; only its effect ends.
  predicate EffectiveIn(journal: Journal, o: Id, a: Id) {
    OpKey(o, Load, Some(a)) in journal && OpKey(o, UndoLoad, Some(a)) !in journal
  }

  predicate Effective(t: Trip, a: Id) { EffectiveIn(t.operations, t.order.id, a) }

  predicate Later(x: Operation, y: Operation) {
    x.at > y.at || (x.at == y.at && x.id >= y.id)
  }

  ghost predicate IsLatestLoad(journal: Journal, o: Id, a: Id) {
    EffectiveIn(journal, o, a)
    && forall b :: EffectiveIn(journal, o, b) ==>
         Later(journal[OpKey(o, Load, Some(a))], journal[OpKey(o, Load, Some(b))])
  }

  // The count of the latest load that no undo_load has lifted.
  ghost function LatestLoadIn(journal: Journal, o: Id): Option<nat> {
    if a :| IsLatestLoad(journal, o, a) then Some(journal[OpKey(o, Load, Some(a))].packages) else None
  }

  ghost function LatestLoad(t: Trip): Option<nat> { LatestLoadIn(t.operations, t.order.id) }

  predicate Serving(a: Assignment) { a.status == Accepted || a.status == Active }

  ghost function Server(t: Trip): (server: Option<Id>)
    ensures server.Some? ==> server.value in t.assignments
  {
    if a :| a in t.assignments && Serving(t.assignments[a]) then Some(a) else None
  }

  ghost function Carrier(t: Trip): Option<Id> {
    if a :| a in t.assignments && t.assignments[a].status == Active then Some(a) else None
  }

  // ---- Writing -----------------------------------------------------------------------

  // Sets the order row and records the change of its status.
  function MoveTo(t: Trip, row: Order, actor: Id, reason: Option<StatusReason>, now: Time): Trip {
    t.(order := row,
       history := t.history + [StatusChange(t.order.status, row.status, actor, reason, now)])
  }

  function Put(t: Trip, a: Id, row: Assignment): Trip {
    t.(assignments := t.assignments[a := row])
  }

  function ReleasedRow(row: Assignment, why: ReleaseReason, now: Time): Assignment {
    row.(status := Released, releasedAt := Some(now), releaseReason := Some(why))
  }

  // Adds the quantity incident a count calls for; nothing is expected of a trip without a figure.
  function WithDiscrepancy(t: Trip, cause: Cause, expected: Option<nat>, actual: nat,
                           assignment: Option<Id>, warehouse: Option<Id>, incident: Id, actor: Id, now: Time): Trip {
    if expected.None? || expected.value == actual then t
    else t.(incidents := t.incidents[incident := Incident(
      t.order.id, assignment, warehouse, cause, QuantityDiscrepancy,
      expected, Some(actual), true, Unresolved, actor, now, None, None)])
  }

  // ---- Order commands ----------------------------------------------------------------

  function EndpointObjection(warehouse: Option<Id>, fleet: Registry): Option<Error> {
    if warehouse.None? then None
    else if warehouse.value !in fleet.warehouses then Some(NotFound)
    else if !fleet.warehouses[warehouse.value].active then Some(WarehouseInactive)
    else if !fleet.warehouses[warehouse.value].located then Some(InvalidOrderInput)
    else None
  }

  predicate WellDescribed(draft: DraftRequest) {
    && (draft.origin.Some? || draft.fromAddress) && (draft.destination.Some? || draft.toAddress)
    && (draft.weight.Some? ==> draft.weight.value >= 0.0) && (draft.volume.Some? ==> draft.volume.value >= 0.0)
    && (draft.pickupFrom.Some? && draft.pickupTo.Some? ==> draft.pickupFrom.value < draft.pickupTo.value)
  }

  function DraftObjection(who: Actor, draft: DraftRequest, fleet: Registry): Option<Error> {
    if who.role == Manager && !Runs(who, draft.origin) then Some(Forbidden)
    else if !WellDescribed(draft) then Some(InvalidOrderInput)
    else
      var origin := EndpointObjection(draft.origin, fleet);
      if origin.Some? then origin else EndpointObjection(draft.destination, fleet)
  }

  // A warehouse lends the order its own address.
  function NewDraft(id: Id, who: Actor, draft: DraftRequest, fleet: Registry): Order {
    Order(id, Some(who.user), None, draft.origin, draft.destination, Or(draft.weight, 0.0), Or(draft.volume, 0.0),
          if draft.destination.Some? then draft.destination.value in fleet.warehouses && fleet.warehouses[draft.destination.value].addressed
          else draft.toAddress,
          true, Draft, draft.pickupFrom, draft.pickupTo, 1, None, None, None, None, None, None, None)
  }

  function Or<T>(change: Option<T>, default: T): T {
    if change.Some? then change.value else default
  }

  function ChangedDraft(order: Order, change: DraftChange): (row: Order)
    ensures row.id == order.id
  {
    order.(weight := Or(change.weight, order.weight), volume := Or(change.volume, order.volume),
           pickupFrom := if change.pickupFrom.Some? then change.pickupFrom else order.pickupFrom,
           pickupTo := if change.pickupTo.Some? then change.pickupTo else order.pickupTo)
  }

  predicate Shippable(order: Order) {
    order.weight >= 0.0 && order.volume >= 0.0
    && (order.pickupFrom.None? || order.pickupTo.None? || order.pickupFrom.value < order.pickupTo.value)
  }

  function EditDraft(t: Trip, who: Actor, change: DraftChange, route: Option<Route>): Verdict {
    var row := ChangedDraft(t.order, change);
    if who.role == Client && t.order.createdBy != Some(who.user) then Refuse(Forbidden)
    else if who.role == Manager && !Runs(who, t.order.origin) then Refuse(Forbidden)
    else if t.order.status != Draft then Refuse(InvalidOrderTransition)
    else if !Shippable(row) then Refuse(InvalidOrderInput)
    else if route.None? then Refuse(NotFound)
    else if !route.value.complete then Refuse(InvalidOrderInput)
    else Done(t.(order := row.(priced := true)), {})
  }

  // Whether this user may name the counterparty on an order of this customer's.
  predicate MayName(who: Actor, createdBy: Option<Id>, party: Party) {
    who.role == Admin || party.shared || party.owner == who.user || (who.role == Manager && createdBy == Some(party.owner))
  }

  function PartyRefusal(who: Actor, createdBy: Option<Id>, p: Id, fleet: Registry): Option<Error> {
    if p !in fleet.parties then Some(NotFound)
    else if !MayName(who, createdBy, fleet.parties[p]) then Some(Forbidden)
    else if !fleet.parties[p].active then Some(CounterpartyArchived)
    else None
  }

  function FirstRefusal(who: Actor, createdBy: Option<Id>, ids: seq<Id>, fleet: Registry): Option<Error> {
    if ids == [] then None
    else
      var refusal := PartyRefusal(who, createdBy, ids[0], fleet);
      if refusal.Some? then refusal else FirstRefusal(who, createdBy, ids[1..], fleet)
  }

  // The three, by identifier.
  function ByIdentifier(r: PartyRequest): seq<Id> {
    var x, y, z := r.sender, r.recipient, r.carrier;
    if x <= y && y <= z then [x, y, z]
    else if x <= z && z <= y then [x, z, y]
    else if y <= x && x <= z then [y, x, z]
    else if y <= z && z <= x then [y, z, x]
    else if z <= x && x <= y then [z, x, y]
    else [z, y, x]
  }

  function PartyObjection(who: Actor, createdBy: Option<Id>, request: PartyRequest, fleet: Registry): Option<Error> {
    var refusal := FirstRefusal(who, createdBy, ByIdentifier(request), fleet);
    if refusal.Some? then refusal
    else if request.carrier in fleet.parties && fleet.parties[request.carrier].individual then Some(InvalidOrderInput)
    else None
  }

  predicate Nameable(who: Actor, createdBy: Option<Id>, p: Id, fleet: Registry) {
    p in fleet.parties && MayName(who, createdBy, fleet.parties[p]) && fleet.parties[p].active
  }

  // Whatever the order of the checks: all three are known, may be named and are active, and the
  // carrier is no private person.
  lemma PartiesAccepted(who: Actor, createdBy: Option<Id>, request: PartyRequest, fleet: Registry)
    ensures PartyObjection(who, createdBy, request, fleet).None?
            <==> && Nameable(who, createdBy, request.sender, fleet) && Nameable(who, createdBy, request.recipient, fleet)
                 && Nameable(who, createdBy, request.carrier, fleet) && !fleet.parties[request.carrier].individual
  {
    var ids := ByIdentifier(request);
    NobodyRefused(who, createdBy, ids, fleet);
    assert request.sender in ids && request.recipient in ids && request.carrier in ids;
    forall p | p in ids ensures p == request.sender || p == request.recipient || p == request.carrier {}
    hide ByIdentifier, FirstRefusal, MayName;
  }

  lemma {:induction false} NobodyRefused(who: Actor, createdBy: Option<Id>, ids: seq<Id>, fleet: Registry)
    ensures FirstRefusal(who, createdBy, ids, fleet).None? <==> forall p :: p in ids ==> PartyRefusal(who, createdBy, p, fleet).None?
  {
    hide PartyRefusal;
    if ids != [] {
      NobodyRefused(who, createdBy, ids[1..], fleet);
      assert ids == [ids[0]] + ids[1..];
    }
  }

  // counterparties: the outcome of checking sender, recipient and carrier.
  function SetDetails(t: Trip, who: Actor, packages: nat, counterparties: Option<Error>): Verdict {
    if who.role == Client && t.order.createdBy != Some(who.user) then Refuse(Forbidden)
    else if who.role == Manager && !Runs(who, t.order.origin) then Refuse(Forbidden)
    else if t.order.status != Draft then Refuse(InvalidOrderTransition)
    else if counterparties.Some? then Refuse(counterparties.value)
    else Done(t.(order := t.order.(declared := Some(packages), policy := 1)), {})
  }

  function Submit(t: Trip, who: Actor, now: Time, route: Option<Route>): Verdict {
    var o := t.order;
    if who.role != Manager && who.role != Admin && (who.role != Client || o.createdBy != Some(who.user)) then
      Refuse(Forbidden)
    else if who.role == Manager && !Runs(who, o.origin) then Refuse(Forbidden)
    else if !CanTransition(o.status, Ready) then Refuse(InvalidOrderTransition)
    else if !o.addressed || o.weight < 0.0 || o.volume < 0.0 || o.pickupFrom.None? || o.pickupTo.None?
            || o.pickupFrom.value >= o.pickupTo.value then Refuse(InvalidTimeWindow)
    else if route.None? then Refuse(NotFound)
    else if !o.priced || !route.value.complete then Refuse(InvalidOrderInput)
    else if o.policy == 1 && o.declared.None? then Refuse(TransportDetailsRequired)
    else Done(MoveTo(t, o.(status := Ready, submittedAt := Some(now)), who.user, None, now), {})
  }

  function Cancellable(t: Trip): set<Id> {
    set a | a in t.assignments && (t.assignments[a].status == Pending || t.assignments[a].status == Accepted)
  }

  function Cancel(t: Trip, who: Actor, now: Time, reason: Option<StatusReason>, fleet: Registry): Verdict {
    var held := Cancellable(t);
    if exists a, b :: a in held && b in held && a != b then Refuse(AssignmentStale)
    else if exists a :: a in held && t.assignments[a].driver !in fleet.drivers then Refuse(DriverNotEligible)
    else if exists a :: a in held && t.assignments[a].vehicle !in fleet.vehicles then Refuse(VehicleNotOperational)
    else if who.role == Manager && !Runs(who, t.order.origin) then Refuse(Forbidden)
    else if who.role == Client && (t.order.createdBy != Some(who.user)
            || (t.order.status != Draft && t.order.status != Ready)) then Refuse(Forbidden)
    else if exists a :: a in held && Effective(t, a) then Refuse(WarehouseOperationConflict)
    else if !CanTransition(t.order.status, Cancelled) then Refuse(InvalidOrderTransition)
    else
      var freed := t.(assignments := map a | a in t.assignments ::
        if a in held then ReleasedRow(t.assignments[a], OrderCancelled, now) else t.assignments[a]);
      Done(MoveTo(freed, t.order.(status := Cancelled, cancelledAt := Some(now)), who.user, reason, now), held)
  }

  // ---- Assignment commands -------------------------------------------------------------

  // lockAssignmentContext: the driver and vehicle rows must exist.
  function Context(t: Trip, a: Id, fleet: Registry): Option<Error>
    requires a in t.assignments
  {
    if t.assignments[a].driver !in fleet.drivers then Some(DriverNotEligible)
    else if t.assignments[a].vehicle !in fleet.vehicles then Some(VehicleNotOperational)
    else None
  }

  predicate Recommended(t: Trip, request: OfferRequest, stored: Option<StoredRecommendation>) {
    request.recommendation.Some? && request.recommendationCreatedAt.Some? && t.order.submittedAt.Some?
    && stored.Some?
    && stored.value.submittedAt == t.order.submittedAt.value
    && stored.value.createdAt == request.recommendationCreatedAt.value
    && exists i :: 0 <= i < |stored.value.candidates|
         && stored.value.candidates[i] == Candidate(request.recommendation.value, request.driver, request.vehicle)
  }

  // Releasing the assignment an offer replaces sends an assigned order back to ready.
  function Withdraw(t: Trip, a: Id, actor: Id, now: Time): Trip
    requires a in t.assignments
  {
    var freed := Put(t, a, ReleasedRow(t.assignments[a], Reassigned, now));
    if t.order.status != Assigned then freed
    else MoveTo(freed, t.order.(status := Ready, driver := None, assignedAt := None), actor,
                Some(Because(Reassigned)), now)
  }

  function OfferRow(o: Id, who: Actor, now: Time, request: OfferRequest): Assignment {
    Assignment(o, request.driver, request.vehicle, Pending, request.plannedFrom, request.plannedTo,
               who.user, now, now + OFFER_LIFETIME, None, None, None, None, None, None)
  }

  // The unique index on open assignments of an order, plus `taken`: the id is in use or the
  // driver or vehicle is reserved by another order in an overlapping window.
  predicate Blocked(t: Trip, id: Id, taken: bool) {
    taken || id in t.assignments || exists a :: a in t.assignments && Open(t.assignments[a])
  }

  function Offer(t: Trip, who: Actor, now: Time, request: OfferRequest, fleet: Registry,
                 stored: Option<StoredRecommendation>, id: Id, taken: bool): Verdict {
    var p := request.supersedes;
    if who.role == Manager && !Touches(t.order, who.warehouse) then Refuse(Forbidden)
    else if request.plannedFrom >= request.plannedTo || request.plannedFrom < now then Refuse(InvalidTimeWindow)
    else if p.Some? && p.value !in t.assignments then Refuse(AssignmentStale)
    else if request.driver !in fleet.drivers
            || (p.Some? && t.assignments[p.value].driver !in fleet.drivers) then Refuse(DriverNotEligible)
    else if request.vehicle !in fleet.vehicles
            || (p.Some? && t.assignments[p.value].vehicle !in fleet.vehicles) then Refuse(VehicleNotOperational)
    else if who.role == Manager && !Runs(who, t.order.origin) then Refuse(Forbidden)
    else if p.None? && t.order.status != Ready then Refuse(InvalidOrderTransition)
    else if p.Some? && Effective(t, p.value) then Refuse(WarehouseOperationConflict)
    else if p.Some? && t.assignments[p.value].status != Pending && t.assignments[p.value].status != Accepted then
      Refuse(AssignmentStale)
    else if p.Some? && t.order.status != Ready && t.order.status != Assigned then Refuse(InvalidOrderTransition)
    else
      var objection := Objection(t.order, fleet.drivers[request.driver], fleet.vehicles[request.vehicle],
                                 request.plannedFrom, request.plannedTo);
      if objection.Some? then Refuse(objection.value)
      else if request.source == UnknownSource then Refuse(AssignmentStale)
      else if request.source == DispatchRecommendation && !Recommended(t, request, stored) then Refuse(AssignmentStale)
      else
        var freed := if p.Some? then Withdraw(t, p.value, who.user, now) else t;
        if Blocked(freed, id, taken) then Refuse(ResourceAlreadyReserved)
        else Done(Put(freed, id, OfferRow(t.order.id, who, now, request)), if p.Some? then {p.value} else {})
  }

  // expireAssignment: no effect on an offer that is answered or not yet due.
  function Lapse(t: Trip, a: Id, now: Time): Verdict
    requires a in t.assignments
  {
    if t.assignments[a].status != Pending || now < t.assignments[a].offerExpiresAt then Done(t, {})
    else Done(Put(t, a, t.assignments[a].(status := Expired)), {a})
  }

  function Expire(t: Trip, a: Id, now: Time, fleet: Registry): Verdict
    requires a in t.assignments
  {
    var missing := Context(t, a, fleet);
    if missing.Some? then Refuse(missing.value) else Lapse(t, a, now)
  }

  function Accept(t: Trip, a: Id, who: Actor, now: Time, fleet: Registry): Verdict
    requires a in t.assignments
  {
    var row := t.assignments[a];
    var missing := Context(t, a, fleet);
    if missing.Some? then Refuse(missing.value)
    else if fleet.drivers[row.driver].user != who.user then Refuse(Forbidden)
    else if row.status != Pending then Refuse(AssignmentStale)
    else if now >= row.offerExpiresAt then Lapse(t, a, now).(reply := Some(AssignmentExpired))
    else if t.order.status != Ready then Refuse(InvalidOrderTransition)
    else
      var objection := Objection(t.order, fleet.drivers[row.driver], fleet.vehicles[row.vehicle],
                                 row.plannedFrom, row.plannedTo);
      if objection.Some? then Refuse(objection.value)
      else
        var taken := Put(t, a, row.(status := Accepted, acceptedAt := Some(now)));
        Done(MoveTo(taken, t.order.(status := Assigned, driver := Some(row.driver), assignedAt := Some(now)),
                    who.user, None, now), {})
  }

  function Reject(t: Trip, a: Id, who: Actor, now: Time, fleet: Registry): Verdict
    requires a in t.assignments
  {
    var missing := Context(t, a, fleet);
    if missing.Some? then Refuse(missing.value)
    else if fleet.drivers[t.assignments[a].driver].user != who.user then Refuse(Forbidden)
    else if t.assignments[a].status != Pending then Refuse(AssignmentStale)
    else Done(Put(t, a, t.assignments[a].(status := Rejected, rejectedAt := Some(now))), {a})
  }

  function Start(t: Trip, a: Id, who: Actor, now: Time, fleet: Registry): Verdict
    requires a in t.assignments
  {
    var missing := Context(t, a, fleet);
    if missing.Some? then Refuse(missing.value)
    else if fleet.drivers[t.assignments[a].driver].user != who.user then Refuse(Forbidden)
    else if t.assignments[a].status != Accepted || !CanTransition(t.order.status, InTransit) then
      Refuse(InvalidOrderTransition)
    else if HasOpenIncident(t) then Refuse(IncidentOpen)
    else if t.order.origin.Some? && !Performed(t, Load, Some(a)) then Refuse(WarehouseOperationRequired)
    else
      var moving := Put(t, a, t.assignments[a].(status := Active, startedAt := Some(now)));
      Done(MoveTo(moving, t.order.(status := InTransit, startedAt := Some(now)), who.user, None, now), {})
  }

  function Arrive(t: Trip, a: Id, who: Actor, now: Time, fleet: Registry): Verdict
    requires a in t.assignments
  {
    var missing := Context(t, a, fleet);
    if missing.Some? then Refuse(missing.value)
    else if fleet.drivers[t.assignments[a].driver].user != who.user then Refuse(Forbidden)
    else if t.assignments[a].status != Active || !CanTransition(t.order.status, Arrived) then
      Refuse(InvalidOrderTransition)
    else Done(MoveTo(t, t.order.(status := Arrived, arrivedAt := Some(now)), who.user, None, now), {})
  }

  // The warehouse that answers for the delivery: the destination, or the origin without one.
  function Responsible(order: Order): Option<Id> {
    if order.destination.Some? then order.destination else order.origin
  }

  function Complete(t: Trip, a: Id, who: Actor, now: Time, request: CompleteRequest, fleet: Registry): Verdict
    requires a in t.assignments
  {
    var row := t.assignments[a];
    var missing := Context(t, a, fleet);
    if missing.Some? then Refuse(missing.value)
    else if who.role == DriverRole && fleet.drivers[row.driver].user != who.user then Refuse(Forbidden)
    else if who.role == Manager && !Runs(who, Responsible(t.order)) then Refuse(Forbidden)
    else if row.status != Active || !CanTransition(t.order.status, OrderStatus.Completed) then
      Refuse(InvalidOrderTransition)
    else if HasOpenIncident(t) then Refuse(IncidentOpen)
    else if t.order.destination.Some? && who.role == DriverRole then Refuse(Forbidden)
    else if t.order.destination.Some? && !Performed(t, Unload, Some(a)) then Refuse(WarehouseOperationRequired)
    else if t.receipt.None? && t.order.policy == 1 then Refuse(DeliveryReceiptRequired)
    else if t.receipt.Some? && t.receipt.value.assignment != a then Refuse(AssignmentStale)
    else if t.receipt.Some? && request.recipient.Some? && request.recipient.value != t.receipt.value.recipient then
      Refuse(InvalidOrderInput)
    else if !request.texts then Refuse(InvalidOrderInput)
    else
      var closed := Put(t, a, row.(status := AssignmentStatus.Completed, completedAt := Some(now)));
      Done(MoveTo(closed, t.order.(status := OrderStatus.Completed, deliveredAt := Some(now)), who.user, None, now), {a})
  }

  // ---- Warehouse journal -----------------------------------------------------------------

  // The count an operation is compared with, from the journal and the declared count.
  ghost function ExpectedIn(journal: Journal, o: Id, declared: Option<nat>, kind: OperationKind, assignment: Option<Id>): Option<nat> {
    match kind
    case Receive => declared
    case UndoLoad => CountIn(journal, OpKey(o, Load, assignment))
    case Load => CountIn(journal, OpKey(o, Receive, None))
    case ReturnToSender => CountIn(journal, OpKey(o, Receive, None))
    case Unload => LatestLoadIn(journal, o)
  }

  function CountIn(journal: Journal, k: OpKey): Option<nat> {
    if k in journal then Some(journal[k].packages) else None
  }

  // Read before the operation is recorded.
  ghost function ExpectedBy(t: Trip, kind: OperationKind, assignment: Option<Id>): Option<nat> {
    ExpectedIn(t.operations, t.order.id, t.order.declared, kind, assignment)
  }

  // undoWarehouseLoading
  function Unloaded(t: Trip, a: Id, actor: Id, now: Time): Trip
    requires a in t.assignments
  {
    var freed := Put(t, a, ReleasedRow(t.assignments[a], LoadingUndone, now));
    MoveTo(freed, t.order.(status := Ready, driver := None, assignedAt := None), actor,
           Some(Because(LoadingUndone)), now)
  }

  function Site(order: Order, kind: OperationKind): Option<Id> {
    if kind == Unload then order.destination else order.origin
  }

  // The journal row, and the quantity incident its count calls for.
  function Entered(t: Trip, k: OpKey, op: Operation, cause: Cause, expected: Option<nat>, warehouse: Option<Id>,
                   incident: Id, actor: Id, now: Time): Trip {
    WithDiscrepancy(t.(operations := t.operations[k := op]), cause, expected, op.packages, k.assignment, warehouse, incident, actor, now)
  }

  // Everything checked before the journal row is inserted. `elsewhere`: the assignment named
  // belongs to another order.
  function OperationObjection(t: Trip, who: Actor, request: OperationRequest, fleet: Registry, elsewhere: bool): Option<Error> {
    var kind, a := request.kind, request.assignment;
    var site := Site(t.order, kind);
    if site.None? then Some(InvalidOrderInput)
    else if who.role == Manager && !Runs(who, site) then Some(Forbidden)
    else if kind == Receive || kind == ReturnToSender then
      if a.Some? then Some(InvalidOrderInput)
      else if kind == Receive && t.order.status != Ready && t.order.status != Assigned then Some(InvalidOrderTransition)
      else if kind == ReturnToSender && t.order.status != Cancelled then Some(InvalidOrderTransition)
      else if kind == ReturnToSender && !Performed(t, Receive, None) then Some(WarehouseOperationRequired)
      else SiteObjection(kind, site.value, fleet)
    else if a.None? then Some(InvalidOrderInput)
    else if a.value !in t.assignments then Some(if elsewhere then WarehouseOperationConflict else NotFound)
    else
      var row := t.assignments[a.value];
      if kind == Unload then
        if t.order.status != Arrived || row.status != Active then Some(InvalidOrderTransition)
        else SiteObjection(kind, site.value, fleet)
      else if t.order.status != Assigned || row.status != Accepted then Some(InvalidOrderTransition)
      else if !Performed(t, Receive, None) then Some(WarehouseOperationRequired)
      else if kind == Load && HasOpenIncident(t) then Some(IncidentOpen)
      else if kind == UndoLoad && !Effective(t, a.value) then Some(WarehouseOperationRequired)
      else if kind == UndoLoad && (row.driver !in fleet.drivers || row.vehicle !in fleet.vehicles) then Some(NotFound)
      else SiteObjection(kind, site.value, fleet)
  }

  // Only receiving and loading need the warehouse to be active.
  function SiteObjection(kind: OperationKind, site: Id, fleet: Registry): Option<Error> {
    if site !in fleet.warehouses then Some(NotFound)
    else if (kind == Receive || kind == Load) && !fleet.warehouses[site].active then Some(WarehouseInactive)
    else None
  }

  // taken: the operation id is in use; spent: the incident id is in use.
  ghost function Operate(t: Trip, who: Actor, now: Time, request: OperationRequest, fleet: Registry,
                         elsewhere: bool, id: Id, taken: bool, incident: Id, spent: bool): Verdict
    requires request.packages >= 0
  {
    var objection := OperationObjection(t, who, request, fleet, elsewhere);
    var kind := request.kind;
    if objection.Some? then Refuse(objection.value)
    else if taken || Performed(t, kind, request.assignment) then Refuse(WarehouseOperationConflict)
    else
      var expected := ExpectedBy(t, kind, request.assignment);
      if expected.Some? && expected.value != request.packages && (spent || incident in t.incidents) then
        Refuse(StorageFailure)
      else
        var site := Site(t.order, kind);
        var entered := Entered(t, KeyOf(t, kind, request.assignment), Operation(id, site.value, request.packages, who.user, now),
                               OfOperation(id), expected, site, incident, who.user, now);
        if kind == UndoLoad then Done(Unloaded(entered, request.assignment.value, who.user, now), {request.assignment.value})
        else Done(entered, {})
  }

  // ---- Incidents ---------------------------------------------------------------------------

  ghost function Report(t: Trip, who: Actor, now: Time, request: IncidentRequest, fleet: Registry,
                        id: Id, taken: bool): Verdict
    requires NonNegative(request.expected) && NonNegative(request.actual)
  {
    var o := t.order;
    var server := Server(t);
    if who.role == Client && o.createdBy != Some(who.user) then Refuse(Forbidden)
    else if who.role == Manager && !Touches(o, who.warehouse) then Refuse(Forbidden)
    else if who.role == DriverRole && server.None? then Refuse(Forbidden)
    else if who.role == DriverRole && t.assignments[server.value].driver !in fleet.drivers then Refuse(StorageFailure)
    else if who.role == DriverRole && fleet.drivers[t.assignments[server.value].driver].user != who.user then
      Refuse(Forbidden)
    else if o.status != Ready && o.status != Assigned && o.status != InTransit && o.status != Arrived then
      Refuse(InvalidOrderTransition)
    else if (request.kind == VehicleBreakdown && server.None?)
            || (request.kind == RecipientRefusal && o.status != Arrived) then Refuse(InvalidOrderTransition)
    else if taken || id in t.incidents then Refuse(StorageFailure)
    else
      var warehouse := if o.status == Arrived && request.kind != VehicleBreakdown && o.destination.Some?
                       then o.destination else o.origin;
      Done(t.(incidents := t.incidents[id := Incident(
        o.id, server, warehouse, Reported, request.kind, Natural(request.expected), Natural(request.actual),
        true, Unresolved, who.user, now, None, None)]), {})
  }

  predicate NonNegative(n: Option<int>) { n.None? || n.value >= 0 }

  function Natural(n: Option<int>): Option<nat>
    requires NonNegative(n)
  {
    match n case None => None case Some(v) => Some(v)
  }

  predicate VehicleReplaced(t: Trip, a: Id) {
    a in t.assignments && t.assignments[a].status == Released
    && exists b :: b in t.assignments && Serving(t.assignments[b]) && t.assignments[b].vehicle != t.assignments[a].vehicle
  }

  predicate UnloadedByCarrier(t: Trip) {
    exists a :: a in t.assignments && t.assignments[a].status == Active && Performed(t, Unload, Some(a))
  }

  predicate Settles(t: Trip, incident: Incident, request: ResolveRequest) {
    match incident.kind
    case QuantityDiscrepancy => request.resolution == AcceptDiscrepancy
    case CargoDamage => request.resolution == AcceptWithRemarks || request.resolution == Remediated
    case OtherIncident => request.resolution == Remediated
    case VehicleBreakdown =>
      request.resolution == Repaired
      || (request.resolution == ResourcesReplaced && incident.assignment.Some?
          && VehicleReplaced(t, incident.assignment.value))
    case RecipientRefusal =>
      request.resolution == RecipientAccepted && request.recipient != "" && t.order.status == Arrived
      && (t.order.destination.Some? ==> UnloadedByCarrier(t))
  }

  function Resolve(t: Trip, id: Id, who: Actor, now: Time, request: ResolveRequest): Verdict
    requires id in t.incidents
  {
    var row := t.incidents[id];
    if who.role == Manager && !Runs(who, row.warehouse) then Refuse(Forbidden)
    else if !row.open then Refuse(IncidentStale)
    else if !Settles(t, row, request) then Refuse(IncidentResolutionInvalid)
    else Done(t.(incidents := t.incidents[id := row.(
      open := false, resolution := request.resolution, resolvedBy := Some(who.user), resolvedAt := Some(now))]), {})
  }

  // ---- Delivery receipt ----------------------------------------------------------------------

  ghost function ExpectedAtReceipt(t: Trip): Option<nat> {
    if t.order.destination.Some? then None
    else
      var loaded := LatestLoad(t);
      if loaded.Some? then loaded else t.order.declared
  }

  ghost function Acknowledge(t: Trip, who: Actor, now: Time, request: ReceiptRequest, fleet: Registry,
                             elsewhere: bool, incident: Id, spent: bool): Verdict
    requires request.packages >= 0
  {
    var o, a := t.order, request.assignment;
    var received := if request.receivedAt.Some? then request.receivedAt.value else now;
    if a !in t.assignments then Refuse(if elsewhere then AssignmentStale else NotFound)
    else if who.role == DriverRole && t.assignments[a].driver !in fleet.drivers then Refuse(StorageFailure)
    else if who.role == DriverRole
            && (fleet.drivers[t.assignments[a].driver].user != who.user || o.destination.Some?) then Refuse(Forbidden)
    else if who.role == Manager && !Runs(who, Responsible(o)) then Refuse(Forbidden)
    else if o.status != Arrived || t.assignments[a].status != Active || o.arrivedAt.None? then
      Refuse(InvalidOrderTransition)
    else if received < o.arrivedAt.value then Refuse(InvalidOrderInput)
    else if t.receipt.Some? then Refuse(DeliveryReceiptConflict)
    else if o.destination.Some? && !Performed(t, Unload, Some(a)) then Refuse(WarehouseOperationRequired)
    else if o.destination.Some? && t.operations[KeyOf(t, Unload, Some(a))].packages != request.packages then
      Refuse(InvalidOrderInput)
    else
      var expected := ExpectedAtReceipt(t);
      if expected.Some? && expected.value != request.packages && (spent || incident in t.incidents) then
        Refuse(StorageFailure)
      else
        var signed := t.(receipt := Some(Receipt(a, request.recipient, request.packages, received, now, who.user)));
        Done(WithDiscrepancy(signed, OfReceipt, expected, request.packages, Some(a), o.origin, incident, who.user, now), {})
  }

  // ---- Handover in transit ---------------------------------------------------------------------

  // Pending invitations whose time is up expire.
  function LapseInvitations(t: Trip, now: Time): Trip {
    t.(handovers := map h | h in t.handovers ::
      if t.handovers[h].status == HandoverPending && t.handovers[h].expiresAt <= now
      then t.handovers[h].(status := HandoverExpired) else t.handovers[h])
  }

  // authorizeHandoverManager
  predicate MayManageHandover(t: Trip, who: Actor) {
    who.role == Admin || (who.role == Manager && Runs(who, t.order.origin))
  }

  ghost function Invite(t: Trip, who: Actor, now: Time, request: HandoverRequest, fleet: Registry,
                        id: Id, taken: bool): Verdict {
    var carrier := Carrier(t);
    if !MayManageHandover(t, who) then Refuse(Forbidden)
    else if t.order.status != InTransit then Refuse(InvalidOrderTransition)
    else if carrier.None? then Refuse(NotFound)
    else
      var leaving := t.assignments[carrier.value];
      if leaving.driver == request.driver && leaving.vehicle == request.vehicle then Refuse(InvalidOrderInput)
      else if leaving.driver !in fleet.drivers || request.driver !in fleet.drivers
              || leaving.vehicle !in fleet.vehicles || request.vehicle !in fleet.vehicles then Refuse(NotFound)
      else
        var objection := Objection(t.order, fleet.drivers[request.driver], fleet.vehicles[request.vehicle],
                                   now, request.plannedTo);
        if objection.Some? then Refuse(objection.value)
        else
          var lapsed := LapseInvitations(t, now);
          if taken || id in t.handovers
             || exists h :: h in lapsed.handovers && lapsed.handovers[h].status == HandoverPending then
            Refuse(AssignmentStale)
          else Done(lapsed.(handovers := lapsed.handovers[id := Handover(
            t.order.id, carrier.value, None, request.driver, request.vehicle, who.user, request.plannedTo,
            HandoverPending, now, now + OFFER_LIFETIME, None, None)]), {})
  }

  function NextLeg(o: Id, item: Handover, now: Time): Assignment {
    Assignment(o, item.driver, item.vehicle, Active, now, item.plannedTo, item.createdBy, now,
               now + OFFER_LIFETIME, Some(now), None, None, None, Some(now), None)
  }

  function SetHandover(t: Trip, h: Id, item: Handover): Trip {
    t.(handovers := t.handovers[h := item])
  }

  // id, taken: the id of the next leg, and whether inserting that leg would break a constraint.
  function Answer(t: Trip, h: Id, who: Actor, now: Time, action: HandoverAction, fleet: Registry,
                  id: Id, taken: bool): Verdict
    requires h in t.handovers
  {
    var item := t.handovers[h];
    var a := item.previous;
    if a !in t.assignments then Refuse(NotFound)
    else
      var leaving := t.assignments[a];
      if leaving.driver !in fleet.drivers || item.driver !in fleet.drivers
         || leaving.vehicle !in fleet.vehicles || item.vehicle !in fleet.vehicles then Refuse(NotFound)
      else if action == CancelHandover && !MayManageHandover(t, who) then Refuse(Forbidden)
      else if action != CancelHandover
              && (who.role != DriverRole
                  || (action == ConfirmRelease && fleet.drivers[leaving.driver].user != who.user)
                  || (action == AcceptHandover && fleet.drivers[item.driver].user != who.user)) then Refuse(Forbidden)
      else if item.status != HandoverPending then Refuse(AssignmentStale)
      else if action == CancelHandover then Done(SetHandover(t, h, item.(status := HandoverCancelled)), {})
      else if now >= item.expiresAt then
        Commit(SetHandover(t, h, item.(status := HandoverExpired)), {}, Some(AssignmentExpired))
      else if t.order.status != InTransit || leaving.status != Active then Refuse(InvalidOrderTransition)
      else if action == ConfirmRelease then
        if item.outgoingConfirmedAt.Some? then Refuse(AssignmentStale)
        else Done(SetHandover(t, h, item.(outgoingConfirmedAt := Some(now))), {})
      else if action == AcceptHandover then TakeOver(t, h, now, fleet, id, taken)
      else Refuse(InvalidOrderInput)
  }

  // The accept branch: the old leg ends and the next begins at one instant.
  function TakeOver(t: Trip, h: Id, now: Time, fleet: Registry, id: Id, taken: bool): Verdict
    requires h in t.handovers && t.handovers[h].previous in t.assignments
    requires t.handovers[h].driver in fleet.drivers && t.handovers[h].vehicle in fleet.vehicles
  {
    var item := t.handovers[h];
    var a := item.previous;
    if item.outgoingConfirmedAt.None? then Refuse(AssignmentStale)
    else if item.plannedTo <= now then Refuse(InvalidTimeWindow)
    else
      var objection := Objection(t.order, fleet.drivers[item.driver], fleet.vehicles[item.vehicle], now, item.plannedTo);
      if objection.Some? then Refuse(objection.value)
      else
        var freed := Put(t, a, ReleasedRow(t.assignments[a], InTransitHandover, now));
        if Blocked(freed, id, taken) then Refuse(ResourceAlreadyReserved)
        else
          var carried := Put(freed, id, NextLeg(t.order.id, item, now));
          Done(SetHandover(carried.(order := t.order.(driver := Some(item.driver))), h,
                           item.(status := HandoverCompleted, completedAt := Some(now), next := Some(id))), {a})
  }
}
