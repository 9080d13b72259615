// Who may do what, and when: each command's conditions on the rows it reads, and that it succeeds
// exactly under them.
module Permissions {
  import opened Model
  import opened Eligibility
  import opened Trips
  import opened Soundness
  import opened Frames
  import opened Verdicts
  import opened Database
  import opened Core
  import opened CoreSafety
  import opened Guarantees

  // ---- Rights ---------------------------------------------------------------------------------------

  predicate Manages(who: Actor, w: Option<Id>) {
    who.role == Manager && who.warehouse.Some? && w.Some? && w.value == who.warehouse.value
  }

  predicate Directs(who: Actor, w: Option<Id>) { who.role == Admin || Manages(who, w) }

  predicate Drives(who: Actor, d: Id, fleet: Registry) {
    who.role == DriverRole && d in fleet.drivers && fleet.drivers[d].user == who.user
  }

  predicate Owns(who: Actor, order: Order) {
    who.role == Client && order.createdBy.Some? && order.createdBy.value == who.user
  }

  // The last warehouse of the trip, or the first where it ends at an address.
  function LastSite(order: Order): Option<Id> { if order.destination.Some? then order.destination else order.origin }

  // ---- The resource check ------------------------------------------------------------------------------

  // A paper or date is good until the midnight that ends its day.
  predicate Lasts(validUntil: int, to: Time) { to <= (validUntil + 1) * DAY }

  predicate Suited(order: Order, d: Id, v: Id, from: Time, to: Time, fleet: Registry) {
    && d in fleet.drivers && v in fleet.vehicles
    && var driver, vehicle := fleet.drivers[d], fleet.vehicles[v];
       && driver.available && vehicle.available
       && (driver.licenses == [] ==> Lasts(driver.licenseExpiry, to))
       && (driver.licenses != [] ==> exists paper :: paper in driver.licenses && paper.valid && Lasts(paper.validUntil, to))
       && (exists paper :: paper in vehicle.registrations && paper.valid && Lasts(paper.validUntil, to))
       && order.weight <= vehicle.capacityKg && order.volume <= vehicle.capacityM3
       && (driver.shifts != [] ==> exists shift :: shift in driver.shifts && shift.startsAt <= from && to <= shift.endsAt)
  }

  // Core has no objection to a pair exactly when all of this holds of it.
  lemma NoObjectionExactly(order: Order, d: Id, v: Id, from: Time, to: Time, fleet: Registry)
    requires d in fleet.drivers && v in fleet.vehicles
    ensures Objection(order, fleet.drivers[d], fleet.vehicles[v], from, to).None? <==> Suited(order, d, v, from, to, fleet)
  {
    var driver, vehicle := fleet.drivers[d], fleet.vehicles[v];
    if Licensed(driver, to) && driver.licenses != [] {
      var i :| 0 <= i < |driver.licenses| && Covers(driver.licenses[i], to);
      assert driver.licenses[i] in driver.licenses;
    }
    if Registered(vehicle, to) {
      var i :| 0 <= i < |vehicle.registrations| && Covers(vehicle.registrations[i], to);
      assert vehicle.registrations[i] in vehicle.registrations;
    }
    if OnShift(driver, from, to) && driver.shifts != [] {
      var i :| 0 <= i < |driver.shifts| && Within(driver.shifts[i], from, to);
      assert driver.shifts[i] in driver.shifts;
    }
    if paper :| paper in driver.licenses && paper.valid && Lasts(paper.validUntil, to) {
      var i :| 0 <= i < |driver.licenses| && driver.licenses[i] == paper;
      assert Covers(driver.licenses[i], to);
    }
    if paper :| paper in vehicle.registrations && paper.valid && Lasts(paper.validUntil, to) {
      var i :| 0 <= i < |vehicle.registrations| && vehicle.registrations[i] == paper;
      assert Covers(vehicle.registrations[i], to);
    }
    if shift :| shift in driver.shifts && shift.startsAt <= from && to <= shift.endsAt {
      var i :| 0 <= i < |driver.shifts| && driver.shifts[i] == shift;
      assert Within(driver.shifts[i], from, to);
    }
  }

  // The error it names is true of the pair.
  lemma ObjectionIsTrue(order: Order, driver: DriverRow, vehicle: VehicleRow, from: Time, to: Time)
    ensures match Objection(order, driver, vehicle, from, to)
            case None => true
            case Some(DriverNotEligible) => !driver.available
            case Some(DriverLicenseExpired) =>
              if driver.licenses == [] then !Lasts(driver.licenseExpiry, to)
              else forall paper :: paper in driver.licenses && paper.valid ==> !Lasts(paper.validUntil, to)
            case Some(VehicleNotOperational) => !vehicle.available
            case Some(VehicleDocumentInvalid) =>
              forall paper :: paper in vehicle.registrations && paper.valid ==> !Lasts(paper.validUntil, to)
            case Some(VehicleCapacityExceeded) => order.weight > vehicle.capacityKg || order.volume > vehicle.capacityM3
            case Some(DriverOutsideShift) =>
              driver.shifts != [] && forall shift :: shift in driver.shifts ==> from < shift.startsAt || shift.endsAt < to
            case Some(_) => false
  {
    var found := Objection(order, driver, vehicle, from, to);
    if found == Some(DriverLicenseExpired) {
      forall paper | paper in driver.licenses && paper.valid ensures driver.licenses != [] && !Lasts(paper.validUntil, to) {
        var i :| 0 <= i < |driver.licenses| && driver.licenses[i] == paper;
        assert !Covers(driver.licenses[i], to);
      }
    }
    if found == Some(VehicleDocumentInvalid) {
      forall paper | paper in vehicle.registrations && paper.valid ensures !Lasts(paper.validUntil, to) {
        var i :| 0 <= i < |vehicle.registrations| && vehicle.registrations[i] == paper;
        assert !Covers(vehicle.registrations[i], to);
      }
    }
    if found == Some(DriverOutsideShift) {
      forall shift | shift in driver.shifts ensures from < shift.startsAt || shift.endsAt < to {
        var i :| 0 <= i < |driver.shifts| && driver.shifts[i] == shift;
        assert !Within(driver.shifts[i], from, to);
      }
    }
  }

  // ---- What the tables say --------------------------------------------------------------------------------

  predicate Unfinished(a: Assignment) { a.status == Pending || a.status == Accepted || a.status == Active }

  predicate Untroubled(t: Trip) { forall i :: i in t.incidents ==> !t.incidents[i].open }

  predicate Entry(t: Trip, kind: OperationKind, a: Option<Id>) { OpKey(t.order.id, kind, a) in t.operations }

  predicate OnBoard(t: Trip, a: Id) { Entry(t, Load, Some(a)) && !Entry(t, UndoLoad, Some(a)) }

  predicate Known(r: Assignment, fleet: Registry) { r.driver in fleet.drivers && r.vehicle in fleet.vehicles }

  // Nobody but `except` is open on the order.
  ghost predicate NobodyElse(t: Trip, except: Option<Id>) {
    forall b :: b in t.assignments && Some(b) != except ==> !Unfinished(t.assignments[b])
  }

  // Nobody open on another order has the driver or the vehicle at any time of the window.
  ghost predicate Unreserved(db: Tables, o: Id, d: Id, v: Id, from: Time, to: Time) {
    forall b :: b in db.assignments && db.assignments[b].order != o && Unfinished(db.assignments[b])
                && (db.assignments[b].driver == d || db.assignments[b].vehicle == v) ==>
      db.assignments[b].plannedTo <= from || to <= db.assignments[b].plannedFrom
  }

  lemma UntakenExactly(db: Tables, o: Id, id: Id, d: Id, v: Id, from: Time, to: Time)
    ensures !AssignmentTaken(db, o, id, d, v, from, to) <==> id !in db.assignments && Unreserved(db, o, d, v, from, to)
  {
  }

  // ---- Assignments ------------------------------------------------------------------------------------------

  predicate MayAccept(t: Trip, a: Id, who: Actor, now: Time, fleet: Registry) {
    a in t.assignments
    && var r := t.assignments[a];
       && Drives(who, r.driver, fleet) && Known(r, fleet)
       && r.status == Pending && now < r.offerExpiresAt && t.order.status == Ready
       && Suited(t.order, r.driver, r.vehicle, r.plannedFrom, r.plannedTo, fleet)
  }

  predicate MayReject(t: Trip, a: Id, who: Actor, fleet: Registry) {
    a in t.assignments && Drives(who, t.assignments[a].driver, fleet) && Known(t.assignments[a], fleet)
    && t.assignments[a].status == Pending
  }

  predicate MayStart(t: Trip, a: Id, who: Actor, fleet: Registry) {
    a in t.assignments && Drives(who, t.assignments[a].driver, fleet) && Known(t.assignments[a], fleet)
    && t.assignments[a].status == Accepted && t.order.status == Assigned
    && Untroubled(t) && (t.order.origin.Some? ==> Entry(t, Load, Some(a)))
  }

  predicate MayArrive(t: Trip, a: Id, who: Actor, fleet: Registry) {
    a in t.assignments && Drives(who, t.assignments[a].driver, fleet) && Known(t.assignments[a], fleet)
    && t.assignments[a].status == Active && t.order.status == InTransit
  }

  // At a warehouse its manager finishes the trip; at an address the driver may too.
  predicate Receives(t: Trip, a: Id, who: Actor, fleet: Registry) {
    a in t.assignments
    && (Directs(who, LastSite(t.order)) || (Drives(who, t.assignments[a].driver, fleet) && t.order.destination.None?))
  }

  predicate MayFinish(t: Trip, a: Id, who: Actor, fleet: Registry) {
    Receives(t, a, who, fleet) && Known(t.assignments[a], fleet)
    && t.assignments[a].status == Active && t.order.status == Arrived && Untroubled(t)
    && (t.order.destination.Some? ==> Entry(t, Unload, Some(a)))
    && (t.order.policy == 1 ==> t.receipt.Some?)
    && (t.receipt.Some? ==> t.receipt.value.assignment == a)
  }

  predicate MayComplete(t: Trip, a: Id, who: Actor, request: CompleteRequest, fleet: Registry) {
    MayFinish(t, a, who, fleet) && request.texts
    && (t.receipt.Some? && request.recipient.Some? ==> request.recipient.value == t.receipt.value.recipient)
  }

  predicate Holds(t: Trip, a: Id) {
    a in t.assignments && (t.assignments[a].status == Pending || t.assignments[a].status == Accepted)
  }

  // A client may call off what nobody drives yet; a loaded order stays.
  ghost predicate MayCancel(t: Trip, who: Actor, fleet: Registry) {
    && (Directs(who, t.order.origin) || (Owns(who, t.order) && (t.order.status == Draft || t.order.status == Ready)))
    && (t.order.status == Draft || t.order.status == Ready || t.order.status == Assigned)
    && (forall a :: Holds(t, a) ==> Known(t.assignments[a], fleet) && !OnBoard(t, a))
    && (forall a, b :: Holds(t, a) && Holds(t, b) ==> a == b)
  }

  predicate MayReplace(t: Trip, p: Id, fleet: Registry) {
    Holds(t, p) && Known(t.assignments[p], fleet) && !OnBoard(t, p) && (t.order.status == Ready || t.order.status == Assigned)
  }

  // One of the pairs recommended for the order as it stands.
  ghost predicate Suggested(t: Trip, request: OfferRequest, stored: Option<StoredRecommendation>) {
    && request.recommendation.Some? && request.recommendationCreatedAt.Some? && stored.Some?
    && t.order.submittedAt == Some(stored.value.submittedAt)
    && request.recommendationCreatedAt.value == stored.value.createdAt
    && Candidate(request.recommendation.value, request.driver, request.vehicle) in stored.value.candidates
  }

  ghost predicate MayOffer(t: Trip, who: Actor, now: Time, request: OfferRequest, fleet: Registry, stored: Option<StoredRecommendation>) {
    && Directs(who, t.order.origin)
    && now <= request.plannedFrom < request.plannedTo
    && Suited(t.order, request.driver, request.vehicle, request.plannedFrom, request.plannedTo, fleet)
    && (request.supersedes.Some? ==> MayReplace(t, request.supersedes.value, fleet))
    && (request.supersedes.None? ==> t.order.status == Ready)
    && NobodyElse(t, request.supersedes)
    && (request.source == Manual || (request.source == DispatchRecommendation && Suggested(t, request, stored)))
  }

  // ---- The warehouse -----------------------------------------------------------------------------------------

  function SiteFor(order: Order, kind: OperationKind): Option<Id> {
    match kind
    case Unload => order.destination
    case _ => order.origin
  }

  predicate MayRecord(t: Trip, who: Actor, kind: OperationKind, a: Option<Id>, packages: int, fleet: Registry) {
    var site := SiteFor(t.order, kind);
    && site.Some? && Directs(who, site) && site.value in fleet.warehouses
    && !Entry(t, kind, a)
    && match kind
       case Receive =>
         a.None? && packages > 0 && (t.order.status == Ready || t.order.status == Assigned) && fleet.warehouses[site.value].active
       case Load =>
         a.Some? && packages > 0 && a.value in t.assignments && t.assignments[a.value].status == Accepted
         && t.order.status == Assigned && Entry(t, Receive, None) && Untroubled(t) && fleet.warehouses[site.value].active
       case UndoLoad =>
         a.Some? && packages >= 0 && a.value in t.assignments && t.assignments[a.value].status == Accepted
         && t.order.status == Assigned && Entry(t, Receive, None) && OnBoard(t, a.value) && Known(t.assignments[a.value], fleet)
       case Unload =>
         a.Some? && packages >= 0 && a.value in t.assignments && t.assignments[a.value].status == Active && t.order.status == Arrived
       case ReturnToSender =>
         a.None? && packages >= 0 && t.order.status == Cancelled && Entry(t, Receive, None)
  }

  // The count an operation is held against: what was declared, received, or loaded, as the case may be.
  ghost predicate Compares(t: Trip, kind: OperationKind, a: Option<Id>, n: Option<nat>) {
    match kind
    case Receive => n == t.order.declared
    case Load => Counted(t, Receive, None, n)
    case ReturnToSender => Counted(t, Receive, None, n)
    case UndoLoad => Counted(t, Load, a, n)
    case Unload => CountedOnBoard(t, n)
  }

  ghost predicate Counted(t: Trip, kind: OperationKind, a: Option<Id>, n: Option<nat>) {
    if Entry(t, kind, a) then n == Some(t.operations[OpKey(t.order.id, kind, a)].packages) else n == None
  }

  ghost predicate CountedOnBoard(t: Trip, n: Option<nat>) {
    if n.Some? then exists b :: OnBoard(t, b) && t.operations[OpKey(t.order.id, Load, Some(b))].packages == n.value
    else forall b :: !OnBoard(t, b)
  }

  // ---- Incidents and the receipt -----------------------------------------------------------------------------

  predicate InCharge(a: Assignment) { a.status == Accepted || a.status == Active }

  ghost predicate MayReport(t: Trip, who: Actor, kind: IncidentKind, fleet: Registry) {
    && (|| who.role == Admin || Owns(who, t.order) || Manages(who, t.order.origin) || Manages(who, t.order.destination)
        || exists a :: a in t.assignments && InCharge(t.assignments[a]) && Drives(who, t.assignments[a].driver, fleet))
    && (t.order.status == Ready || t.order.status == Assigned || t.order.status == InTransit || t.order.status == Arrived)
    && (kind == VehicleBreakdown ==> exists a :: a in t.assignments && InCharge(t.assignments[a]))
    && (kind == RecipientRefusal ==> t.order.status == Arrived)
  }

  // Which decision ends which kind of incident.
  ghost predicate Decides(t: Trip, i: Incident, r: Resolution) {
    match r
    case Unresolved => false
    case AcceptDiscrepancy => i.kind == QuantityDiscrepancy
    case AcceptWithRemarks => i.kind == CargoDamage
    case Remediated => i.kind == CargoDamage || i.kind == OtherIncident
    case Repaired => i.kind == VehicleBreakdown
    case ResourcesReplaced =>
      i.kind == VehicleBreakdown && i.assignment.Some? && i.assignment.value in t.assignments
      && t.assignments[i.assignment.value].status == Released
      && exists b :: b in t.assignments && InCharge(t.assignments[b]) && t.assignments[b].vehicle != t.assignments[i.assignment.value].vehicle
    case RecipientAccepted =>
      i.kind == RecipientRefusal && t.order.status == Arrived
      && (t.order.destination.Some? ==>
            exists b :: b in t.assignments && t.assignments[b].status == Active && Entry(t, Unload, Some(b)))
  }

  ghost predicate MayResolve(t: Trip, i: Id, who: Actor, r: Resolution) {
    i in t.incidents && t.incidents[i].open && Directs(who, t.incidents[i].warehouse) && Decides(t, t.incidents[i], r)
  }

  predicate MaySign(t: Trip, a: Id, who: Actor, packages: int, received: Time, fleet: Registry) {
    Receives(t, a, who, fleet) && packages >= 0
    && t.assignments[a].status == Active && t.order.status == Arrived
    && t.order.arrivedAt.Some? && t.order.arrivedAt.value <= received
    && t.receipt.None?
    && (t.order.destination.Some? ==>
          Entry(t, Unload, Some(a)) && t.operations[OpKey(t.order.id, Unload, Some(a))].packages == packages)
  }

  // Cargo delivered to an address is held against what was loaded, or else declared.
  ghost predicate ComparesReceipt(t: Trip, n: Option<nat>) {
    if t.order.destination.Some? then n == None
    else if exists b :: OnBoard(t, b) then CountedOnBoard(t, n)
    else n == t.order.declared
  }

  // ---- Handover ------------------------------------------------------------------------------------------------

  ghost predicate MayInvite(t: Trip, a: Id, who: Actor, now: Time, d: Id, v: Id, to: Time, fleet: Registry) {
    && Directs(who, t.order.origin) && t.order.status == InTransit
    && a in t.assignments && t.assignments[a].status == Active && Known(t.assignments[a], fleet)
    && (t.assignments[a].driver != d || t.assignments[a].vehicle != v)
    && now < to && Suited(t.order, d, v, now, to, fleet)
    && forall h :: h in t.handovers && t.handovers[h].status == HandoverPending ==> t.handovers[h].expiresAt <= now
  }

  predicate Invited(t: Trip, h: Id, fleet: Registry) {
    h in t.handovers && t.handovers[h].status == HandoverPending
    && t.handovers[h].previous in t.assignments && Known(t.assignments[t.handovers[h].previous], fleet)
    && t.handovers[h].driver in fleet.drivers && t.handovers[h].vehicle in fleet.vehicles
  }

  predicate StillOn(t: Trip, h: Id, now: Time, fleet: Registry) {
    Invited(t, h, fleet) && now < t.handovers[h].expiresAt && t.order.status == InTransit
    && t.assignments[t.handovers[h].previous].status == Active
  }

  // The driver who leaves lets go, once.
  predicate MayConfirm(t: Trip, h: Id, who: Actor, now: Time, fleet: Registry) {
    StillOn(t, h, now, fleet) && Drives(who, t.assignments[t.handovers[h].previous].driver, fleet)
    && t.handovers[h].outgoingConfirmedAt.None?
  }

  // Then the driver who comes takes over.
  predicate MayTakeOver(t: Trip, h: Id, who: Actor, now: Time, fleet: Registry) {
    StillOn(t, h, now, fleet) && Drives(who, t.handovers[h].driver, fleet)
    && t.handovers[h].outgoingConfirmedAt.Some? && now < t.handovers[h].plannedTo
    && Suited(t.order, t.handovers[h].driver, t.handovers[h].vehicle, now, t.handovers[h].plannedTo, fleet)
  }

  predicate MayCallOff(t: Trip, h: Id, who: Actor, fleet: Registry) {
    Invited(t, h, fleet) && Directs(who, t.order.origin)
  }

  // ---- Each verdict against its conditions --------------------------------------------------------------------

  predicate Succeeds(v: Verdict) { v.Commit? && v.reply.None? }

  lemma AcceptExactly(t: Trip, a: Id, who: Actor, now: Time, fleet: Registry)
    requires a in t.assignments && who.role == DriverRole
    ensures Succeeds(Accept(t, a, who, now, fleet)) <==> MayAccept(t, a, who, now, fleet)
  {
    var r := t.assignments[a];
    if Known(r, fleet) { NoObjectionExactly(t.order, r.driver, r.vehicle, r.plannedFrom, r.plannedTo, fleet); }
    hide Objection;
  }

  lemma RejectExactly(t: Trip, a: Id, who: Actor, now: Time, fleet: Registry)
    requires a in t.assignments && who.role == DriverRole
    ensures Succeeds(Reject(t, a, who, now, fleet)) <==> MayReject(t, a, who, fleet)
  {
  }

  lemma StartExactly(t: Trip, a: Id, who: Actor, now: Time, fleet: Registry)
    requires a in t.assignments && who.role == DriverRole
    ensures Succeeds(Start(t, a, who, now, fleet)) <==> MayStart(t, a, who, fleet)
  {
  }

  lemma ArriveExactly(t: Trip, a: Id, who: Actor, now: Time, fleet: Registry)
    requires a in t.assignments && who.role == DriverRole
    ensures Succeeds(Arrive(t, a, who, now, fleet)) <==> MayArrive(t, a, who, fleet)
  {
  }

  lemma CompleteExactly(t: Trip, a: Id, who: Actor, now: Time, request: CompleteRequest, fleet: Registry)
    requires a in t.assignments && who.role != Client
    ensures Succeeds(Complete(t, a, who, now, request, fleet)) <==> MayComplete(t, a, who, request, fleet)
  {
  }

  lemma CancelExactly(t: Trip, who: Actor, now: Time, reason: Option<StatusReason>, fleet: Registry)
    requires who.role != DriverRole
    ensures Succeeds(Cancel(t, who, now, reason, fleet)) <==> MayCancel(t, who, fleet)
  {
    assert forall a :: Holds(t, a) <==> a in Cancellable(t);
    forall a ensures OnBoard(t, a) <==> Effective(t, a) {}
    hide Cancellable, Effective, OnBoard;
  }

  lemma OfferExactly(t: Trip, who: Actor, now: Time, request: OfferRequest, fleet: Registry,
                     stored: Option<StoredRecommendation>, id: Id, taken: bool)
    requires who.role == Manager || who.role == Admin
    ensures Succeeds(Offer(t, who, now, request, fleet, stored, id, taken))
            <==> MayOffer(t, who, now, request, fleet, stored) && !taken && id !in t.assignments
  {
    if request.driver in fleet.drivers && request.vehicle in fleet.vehicles {
      NoObjectionExactly(t.order, request.driver, request.vehicle, request.plannedFrom, request.plannedTo, fleet);
    }
    SuggestedExactly(t, request, stored);
    hide Objection, Suited, Recommended, Suggested;
    var p := request.supersedes;
    if p.Some? && p.value in t.assignments {
      FreedExactly(t, Withdraw(t, p.value, who.user, now), p.value, id, taken);
    }
  }

  lemma FreedExactly(t: Trip, freed: Trip, p: Id, id: Id, taken: bool)
    requires p in freed.assignments && p in t.assignments && freed.assignments == t.assignments[p := freed.assignments[p]]
    requires !Open(freed.assignments[p])
    ensures Blocked(freed, id, taken) <==> taken || id in t.assignments || !NobodyElse(t, Some(p))
  {
    if !NobodyElse(t, Some(p)) {
      var b :| b in t.assignments && Some(b) != Some(p) && Unfinished(t.assignments[b]);
      assert b in freed.assignments && Open(freed.assignments[b]);
    }
  }

  lemma SuggestedExactly(t: Trip, request: OfferRequest, stored: Option<StoredRecommendation>)
    ensures Recommended(t, request, stored) <==> Suggested(t, request, stored)
  {
  }

  lemma OperateExactly(t: Trip, who: Actor, now: Time, request: OperationRequest, fleet: Registry,
                       elsewhere: bool, id: Id, taken: bool, incident: Id, spent: bool, expected: Option<nat>)
    requires (who.role == Manager || who.role == Admin) && request.packages >= 0
    requires (request.kind == Receive || request.kind == Load) ==> request.packages > 0
    requires expected == ExpectedBy(t, request.kind, request.assignment)
    ensures Succeeds(Operate(t, who, now, request, fleet, elsewhere, id, taken, incident, spent))
            <==> && MayRecord(t, who, request.kind, request.assignment, request.packages, fleet) && !taken
                 && (expected.Some? && expected.value != request.packages ==> !spent && incident !in t.incidents)
  {
    hide ExpectedIn;
  }

  lemma ReportExactly(t: Trip, who: Actor, now: Time, request: IncidentRequest, fleet: Registry, id: Id, taken: bool)
    requires NonNegative(request.expected) && NonNegative(request.actual) && OneOpen(t)
    ensures Succeeds(Report(t, who, now, request, fleet, id, taken))
            <==> MayReport(t, who, request.kind, fleet) && !taken && id !in t.incidents
  {
    if a :| a in t.assignments && InCharge(t.assignments[a]) {
      assert Serving(t.assignments[a]);
      forall b | b in t.assignments && Serving(t.assignments[b]) ensures b == a { assert Open(t.assignments[a]) && Open(t.assignments[b]); }
      assert Server(t) == Some(a);
    }
  }

  lemma ResolveExactly(t: Trip, i: Id, who: Actor, now: Time, request: ResolveRequest)
    requires i in t.incidents && (who.role == Manager || who.role == Admin)
    ensures Succeeds(Resolve(t, i, who, now, request))
            <==> MayResolve(t, i, who, request.resolution) && (request.resolution == RecipientAccepted ==> request.recipient != "")
  {
  }

  lemma AcknowledgeExactly(t: Trip, who: Actor, now: Time, request: ReceiptRequest, fleet: Registry,
                           elsewhere: bool, incident: Id, spent: bool, expected: Option<nat>)
    requires who.role != Client && request.packages >= 0 && expected == ExpectedAtReceipt(t)
    ensures var received := if request.receivedAt.Some? then request.receivedAt.value else now;
            Succeeds(Acknowledge(t, who, now, request, fleet, elsewhere, incident, spent))
            <==> && MaySign(t, request.assignment, who, request.packages, received, fleet)
                 && (expected.Some? && expected.value != request.packages ==> !spent && incident !in t.incidents)
  {
    hide ExpectedAtReceipt;
  }

  lemma InviteExactly(t: Trip, who: Actor, now: Time, request: HandoverRequest, fleet: Registry, id: Id, taken: bool)
    requires (who.role == Manager || who.role == Admin) && OneOpen(t) && now < request.plannedTo
    ensures Succeeds(Invite(t, who, now, request, fleet, id, taken))
            <==> && (exists a :: MayInvite(t, a, who, now, request.driver, request.vehicle, request.plannedTo, fleet))
                 && !taken && id !in t.handovers
  {
    if request.driver in fleet.drivers && request.vehicle in fleet.vehicles {
      NoObjectionExactly(t.order, request.driver, request.vehicle, now, request.plannedTo, fleet);
    }
    hide Objection, Suited;
    var lapsed := LapseInvitations(t, now);
    assert (exists h :: h in lapsed.handovers && lapsed.handovers[h].status == HandoverPending)
      <==> (exists h :: h in t.handovers && t.handovers[h].status == HandoverPending && t.handovers[h].expiresAt > now) by {
      if h :| h in t.handovers && t.handovers[h].status == HandoverPending && t.handovers[h].expiresAt > now {
        assert h in lapsed.handovers && lapsed.handovers[h].status == HandoverPending;
      }
    }
    if a :| a in t.assignments && t.assignments[a].status == Active {
      forall b | b in t.assignments && t.assignments[b].status == Active ensures b == a {
        assert Open(t.assignments[a]) && Open(t.assignments[b]);
      }
      assert Carrier(t) == Some(a);
      assert Succeeds(Invite(t, who, now, request, fleet, id, taken))
        <==> MayInvite(t, a, who, now, request.driver, request.vehicle, request.plannedTo, fleet) && !taken && id !in t.handovers;
    }
  }

  // `id` is the next leg's.
  lemma AnswerExactly(t: Trip, h: Id, who: Actor, now: Time, action: HandoverAction, fleet: Registry, id: Id, taken: bool)
    requires h in t.handovers && who.role != Client
    ensures Succeeds(Answer(t, h, who, now, action, fleet, id, taken))
            <==> match action
                 case CancelHandover => MayCallOff(t, h, who, fleet)
                 case ConfirmRelease => MayConfirm(t, h, who, now, fleet)
                 case AcceptHandover =>
                   MayTakeOver(t, h, who, now, fleet) && NobodyElse(t, Some(t.handovers[h].previous)) && id !in t.assignments && !taken
                 case UnknownAction => false
  {
    var item := t.handovers[h];
    if item.driver in fleet.drivers && item.vehicle in fleet.vehicles {
      NoObjectionExactly(t.order, item.driver, item.vehicle, now, item.plannedTo, fleet);
    }
    hide Objection, Suited;
    if item.previous in t.assignments {
      FreedExactly(t, Put(t, item.previous, ReleasedRow(t.assignments[item.previous], InTransitHandover, now)), item.previous, id, taken);
    }
  }

  // ---- The counts compared ---------------------------------------------------------------------------------------

  lemma LatestIsOnBoard(t: Trip)
    requires OneEffective(t.operations, t.order.id)
    ensures CountedOnBoard(t, LatestLoad(t)) && (LatestLoad(t).Some? <==> exists b :: OnBoard(t, b))
  {
    if b :| OnBoard(t, b) {
      assert EffectiveIn(t.operations, t.order.id, b);
      assert IsLatestLoad(t.operations, t.order.id, b);
      forall l | IsLatestLoad(t.operations, t.order.id, l) ensures l == b {
        assert EffectiveIn(t.operations, t.order.id, l);
      }
    }
  }

  lemma ExpectedCompares(t: Trip, kind: OperationKind, a: Option<Id>)
    requires OneEffective(t.operations, t.order.id)
    ensures Compares(t, kind, a, ExpectedBy(t, kind, a))
  {
    LatestIsOnBoard(t);
    hide LatestLoadIn, CountedOnBoard;
  }

  lemma ReceiptCompares(t: Trip)
    requires OneEffective(t.operations, t.order.id)
    ensures ComparesReceipt(t, ExpectedAtReceipt(t))
  {
    LatestIsOnBoard(t);
    hide LatestLoadIn, CountedOnBoard;
  }

  // An operation is compared with one count at most.
  lemma ComparesOnce(t: Trip, kind: OperationKind, a: Option<Id>, n: Option<nat>, m: Option<nat>)
    requires OneEffective(t.operations, t.order.id) && Compares(t, kind, a, n) && Compares(t, kind, a, m)
    ensures n == m
  {
    SameCount(t, n, m);
    hide CountedOnBoard;
  }

  lemma SameCount(t: Trip, n: Option<nat>, m: Option<nat>)
    requires OneEffective(t.operations, t.order.id)
    ensures CountedOnBoard(t, n) && CountedOnBoard(t, m) ==> n == m
  {
    assert forall b :: OnBoard(t, b) <==> EffectiveIn(t.operations, t.order.id, b);
  }

  lemma ReceiptComparesOnce(t: Trip, n: Option<nat>, m: Option<nat>)
    requires OneEffective(t.operations, t.order.id) && ComparesReceipt(t, n) && ComparesReceipt(t, m)
    ensures n == m
  {
    SameCount(t, n, m);
    hide CountedOnBoard;
  }

  // ---- Every command succeeds exactly when it is granted -------------------------------------------------------

  predicate Serviceable(warehouse: Option<Id>, fleet: Registry) {
    warehouse.Some? ==>
      warehouse.value in fleet.warehouses && fleet.warehouses[warehouse.value].active && fleet.warehouses[warehouse.value].located
  }

  predicate NoLess(x: Option<real>) { x.Some? ==> x.value >= 0.0 }

  predicate Begins(from: Option<Time>, to: Option<Time>) { from.Some? && to.Some? ==> from.value < to.value }

  // A user of the order who may edit it: its customer, the manager it leaves from, an administrator.
  predicate Edits(who: Actor, order: Order) { Owns(who, order) || Directs(who, order.origin) }

  predicate Usable(who: Actor, order: Order, p: Id, fleet: Registry) {
    p in fleet.parties && fleet.parties[p].active
    && (|| who.role == Admin || fleet.parties[p].shared || fleet.parties[p].owner == who.user
        || (who.role == Manager && order.createdBy.Some? && order.createdBy.value == fleet.parties[p].owner))
  }

  predicate MayCreate(who: Actor, draft: DraftRequest, fleet: Registry) {
    && (who.role == Client || Directs(who, draft.origin))
    && (draft.origin.Some? || draft.fromAddress) && (draft.destination.Some? || draft.toAddress)
    && NoLess(draft.weight) && NoLess(draft.volume) && Begins(draft.pickupFrom, draft.pickupTo)
    && Serviceable(draft.origin, fleet) && Serviceable(draft.destination, fleet)
  }

  predicate MayEdit(order: Order, who: Actor, change: DraftChange, route: Option<Route>) {
    && Edits(who, order) && order.status == Draft
    && (change.described || change.weight.Some? || change.volume.Some? || change.pickupFrom.Some? || change.pickupTo.Some?)
    && (if change.weight.Some? then change.weight.value >= 0.0 else order.weight >= 0.0)
    && (if change.volume.Some? then change.volume.value >= 0.0 else order.volume >= 0.0)
    && Begins(if change.pickupFrom.Some? then change.pickupFrom else order.pickupFrom,
              if change.pickupTo.Some? then change.pickupTo else order.pickupTo)
    && route.Some? && route.value.complete
  }

  predicate MayDescribe(order: Order, who: Actor, packages: int, texts: bool, parties: PartyRequest, fleet: Registry) {
    && Edits(who, order) && order.status == Draft && texts && packages >= 1
    && Usable(who, order, parties.sender, fleet) && Usable(who, order, parties.recipient, fleet)
    && Usable(who, order, parties.carrier, fleet) && !fleet.parties[parties.carrier].individual
  }

  predicate MaySubmit(order: Order, who: Actor, route: Option<Route>) {
    && Edits(who, order) && (order.status == Draft || order.status == Assigned)
    && order.addressed && order.weight >= 0.0 && order.volume >= 0.0
    && order.pickupFrom.Some? && order.pickupTo.Some? && order.pickupFrom.value < order.pickupTo.value
    && order.priced && route.Some? && route.value.complete
    && (order.policy == 1 ==> order.declared.Some?)
  }

  predicate FreeOperation(db: Tables, id: Id) { forall k :: k in db.operations ==> db.operations[k].id != id }

  ghost predicate OrderGranted(db: Tables, o: Id, e: Event)
    requires o in db.orders
  {
    var t, now, fleet := TripOf(db, o), e.now, e.fleet;
    match e.command
    case UpdateDraftOrder(who, _, change, route) => MayEdit(db.orders[o], who, change, route)
    case SetTransportDetails(who, _, packages, texts, parties) => MayDescribe(db.orders[o], who, packages, texts, parties, fleet)
    case SubmitOrder(who, _, route) => MaySubmit(db.orders[o], who, route)
    case CancelOrder(who, _, _) => MayCancel(t, who, fleet)
    case CreateAssignment(who, _, offer, stored, id) =>
      MayOffer(t, who, now, offer, fleet, stored) && id !in db.assignments
      && Unreserved(db, o, offer.driver, offer.vehicle, offer.plannedFrom, offer.plannedTo)
    case _ => false
  }

  ghost predicate AssignmentGranted(db: Tables, o: Id, e: Event)
    requires o in db.orders
  {
    var t, now, fleet := TripOf(db, o), e.now, e.fleet;
    match e.command
    case AcceptAssignment(who, a) => MayAccept(t, a, who, now, fleet)
    case RejectAssignment(who, a) => MayReject(t, a, who, fleet)
    case ExpireAssignment(a) => a in t.assignments && Known(t.assignments[a], fleet)
    case StartAssignment(who, a) => MayStart(t, a, who, fleet)
    case ArriveAssignment(who, a) => MayArrive(t, a, who, fleet)
    case CompleteAssignment(who, a, completion) => MayComplete(t, a, who, completion, fleet)
    case _ => false
  }

  ghost predicate RecordGranted(db: Tables, o: Id, e: Event)
    requires o in db.orders
  {
    var t, now, fleet := TripOf(db, o), e.now, e.fleet;
    match e.command
    case CreateWarehouseOperation(who, _, op, id, incident) =>
      op.texts && MayRecord(t, who, op.kind, op.assignment, op.packages, fleet) && FreeOperation(db, id)
      && (forall n :: Compares(t, op.kind, op.assignment, Some(n)) && n != op.packages ==> incident !in db.incidents)
    case CreateOrderIncident(who, _, report, id) =>
      report.texts && (report.expected.Some? ==> report.expected.value >= 0) && (report.actual.Some? ==> report.actual.value >= 0)
      && (report.kind == QuantityDiscrepancy ==>
            report.expected.Some? && report.actual.Some? && report.expected.value != report.actual.value)
      && MayReport(t, who, report.kind, fleet) && id !in db.incidents
    case ResolveOrderIncident(who, i, resolution) =>
      resolution.texts && MayResolve(t, i, who, resolution.resolution)
      && (resolution.resolution == RecipientAccepted ==> resolution.recipient != "")
    case CreateDeliveryReceipt(who, _, receipt, incident) =>
      var received := if receipt.receivedAt.Some? then receipt.receivedAt.value else now;
      && receipt.texts && received <= now + 5 * MINUTE
      && MaySign(t, receipt.assignment, who, receipt.packages, received, fleet)
      && (forall n :: ComparesReceipt(t, Some(n)) && n != receipt.packages ==> incident !in db.incidents)
    case CreateTripHandover(who, _, invitation, id) =>
      invitation.texts && id !in db.handovers
      && exists a :: MayInvite(t, a, who, now, invitation.driver, invitation.vehicle, invitation.plannedTo, fleet)
    case UpdateTripHandover(who, h, action, id) =>
      h in db.handovers
      && (match action
          case CancelHandover => MayCallOff(t, h, who, fleet)
          case ConfirmRelease => MayConfirm(t, h, who, now, fleet)
          case AcceptHandover =>
            MayTakeOver(t, h, who, now, fleet) && NobodyElse(t, Some(db.handovers[h].previous)) && id !in db.assignments
            && Unreserved(db, o, db.handovers[h].driver, db.handovers[h].vehicle, now, db.handovers[h].plannedTo)
          case UnknownAction => false)
    case _ => false
  }

  ghost predicate Granted(db: Tables, e: Event) {
    if e.command.CreateOrder? then
      MayCreate(e.command.who, e.command.draft, e.fleet) && e.command.plan.None? && e.command.id !in db.orders
    else e.command.FinishRelease? || GrantedOnTarget(db, e)
  }

  ghost predicate GrantedOnTarget(db: Tables, e: Event) {
    var target := Target(db, e.command);
    target.Some? && target.value in db.orders
    && (AboutOrder(e.command) ==> OrderGranted(db, target.value, e))
    && (AboutAssignment(e.command) ==> AssignmentGranted(db, target.value, e))
    && (!AboutOrder(e.command) && !AboutAssignment(e.command) ==> RecordGranted(db, target.value, e))
  }

  lemma CreationExactly(db: Tables, e: Event)
    requires e.command.CreateOrder?
    ensures Execute(db, e).reply.None? <==> Granted(db, e)
  {
    hide Settle, Decide, Target;
  }

  lemma OrdersExactly(s: State, o: Id, e: Event)
    requires Inv(s) && o in s.db.orders && Target(s.db, e.command) == Some(o) && AboutOrder(e.command)
    ensures (Precheck(e.command, e.now).None? && Succeeds(Decide(s.db, o, e))) <==> OrderGranted(s.db, o, e)
  {
    hide Inv, Cancel, Offer, TripOf, AssignmentTaken, MayCancel, MayOffer, Unreserved, PartyObjection;
    var t := TripOf(s.db, o);
    SameRow(s.db, o);
    match e.command {
      case UpdateDraftOrder(who, _, change, route) =>
      case SetTransportDetails(who, _, packages, texts, parties) =>
        PartiesAccepted(who, t.order.createdBy, parties, e.fleet);
      case SubmitOrder(who, _, route) =>
      case CancelOrder(who, _, reason) =>
        if who.role != DriverRole { CancelExactly(t, who, e.now, if reason.Some? then Some(Code(reason.value)) else None, e.fleet); }
        else { NoDriverCancels(t, who, e.fleet); }
      case CreateAssignment(who, _, offer, stored, id) =>
        UntakenExactly(s.db, o, id, offer.driver, offer.vehicle, offer.plannedFrom, offer.plannedTo);
        OwnRows(s.db, o);
        if who.role == Manager || who.role == Admin {
          OfferExactly(t, who, e.now, offer, e.fleet, stored, id,
                       AssignmentTaken(s.db, o, id, offer.driver, offer.vehicle, offer.plannedFrom, offer.plannedTo));
        } else {
          OnlyDirectorsOffer(t, who, e.now, offer, e.fleet, stored);
        }
    }
  }

  lemma NoDriverCancels(t: Trip, who: Actor, fleet: Registry)
    requires who.role == DriverRole
    ensures !MayCancel(t, who, fleet)
  {
  }

  lemma OnlyDirectorsOffer(t: Trip, who: Actor, now: Time, request: OfferRequest, fleet: Registry, stored: Option<StoredRecommendation>)
    requires who.role != Manager && who.role != Admin
    ensures !MayOffer(t, who, now, request, fleet, stored)
  {
  }

  // The rows of an order are rows of the tables.
  lemma OwnRows(db: Tables, o: Id)
    requires o in db.orders
    ensures var t := TripOf(db, o);
            && t.assignments.Keys <= db.assignments.Keys && t.incidents.Keys <= db.incidents.Keys && t.handovers.Keys <= db.handovers.Keys
            && (forall h :: h in t.handovers ==> t.handovers[h] == db.handovers[h])
  {
  }

  lemma OwnAssignment(db: Tables, a: Id)
    requires a in db.assignments && db.assignments[a].order in db.orders
    ensures a in TripOf(db, db.assignments[a].order).assignments
  {
  }

  lemma AssignmentsExactly(s: State, o: Id, e: Event)
    requires Inv(s) && o in s.db.orders && Target(s.db, e.command) == Some(o) && AboutAssignment(e.command)
    ensures (Precheck(e.command, e.now).None? && Succeeds(Decide(s.db, o, e))) <==> AssignmentGranted(s.db, o, e)
  {
    hide Inv, TripOf, Accept, Reject, Start, Arrive, Complete, Suited;
    var t := TripOf(s.db, o);
    OwnAssignment(s.db, e.command.assignment);
    match e.command {
      case AcceptAssignment(who, a) => if who.role == DriverRole { AcceptExactly(t, a, who, e.now, e.fleet); }
      case RejectAssignment(who, a) => if who.role == DriverRole { RejectExactly(t, a, who, e.now, e.fleet); }
      case ExpireAssignment(a) =>
      case StartAssignment(who, a) => if who.role == DriverRole { StartExactly(t, a, who, e.now, e.fleet); }
      case ArriveAssignment(who, a) => if who.role == DriverRole { ArriveExactly(t, a, who, e.now, e.fleet); }
      case CompleteAssignment(who, a, completion) =>
        if who.role != Client { CompleteExactly(t, a, who, e.now, completion, e.fleet); }
    }
  }

  lemma SoundFacts(s: State, o: Id)
    requires Inv(s) && o in s.db.orders
    ensures var t := TripOf(s.db, o); OneOpen(t) && OneEffective(t.operations, t.order.id) && t.order.id == o
  {
    hide Inv, TripOf;
    SoundOf(s, o);
    SameRow(s.db, o);
    SoundTrip(TripOf(s.db, o), s.clock);
    OwnName(s, o);
  }

  lemma OwnName(s: State, o: Id)
    requires Inv(s) && o in s.db.orders
    ensures s.db.orders[o].id == o
  {
    hide AllSound, NoDoubleBooking, ReleasesKept;
  }

  lemma SoundTrip(t: Trip, clock: Time)
    requires Sound(t, clock)
    ensures OneOpen(t) && OneEffective(t.operations, t.order.id)
  {
    hide Formed, OneOpen, Filed, Held, Strict, Resubmitted, UnloadsHeld, LoadedToStart, Accounted, Custody, Logged;
    OneLoadOnBoard(t);
  }

  lemma OneLoadOnBoard(t: Trip)
    requires LoadsHeld(t)
    ensures OneEffective(t.operations, t.order.id)
  {
    forall a, b | EffectiveIn(t.operations, t.order.id, a) && EffectiveIn(t.operations, t.order.id, b) ensures a == b {
      assert Effective(t, a) && Effective(t, b);
    }
  }

  // No count differs that the operation is compared with, exactly when the one there is does not.
  lemma DiffersExactly(t: Trip, kind: OperationKind, a: Option<Id>, packages: int)
    requires OneEffective(t.operations, t.order.id)
    ensures var expected := ExpectedBy(t, kind, a);
            (expected.Some? && expected.value != packages) <==> exists n: nat :: Compares(t, kind, a, Some(n)) && n != packages
  {
    hide Compares, ExpectedBy;
    ExpectedCompares(t, kind, a);
    forall n | Compares(t, kind, a, n) ensures n == ExpectedBy(t, kind, a) { ComparesOnce(t, kind, a, n, ExpectedBy(t, kind, a)); }
  }

  lemma ReceiptDiffersExactly(t: Trip, packages: int)
    requires OneEffective(t.operations, t.order.id)
    ensures var expected := ExpectedAtReceipt(t);
            (expected.Some? && expected.value != packages) <==> exists n: nat :: ComparesReceipt(t, Some(n)) && n != packages
  {
    hide ComparesReceipt, ExpectedAtReceipt;
    ReceiptCompares(t);
    forall n | ComparesReceipt(t, n) ensures n == ExpectedAtReceipt(t) { ReceiptComparesOnce(t, n, ExpectedAtReceipt(t)); }
  }

  lemma RecordingExactly(s: State, o: Id, e: Event)
    requires Inv(s) && o in s.db.orders && Target(s.db, e.command) == Some(o) && e.command.CreateWarehouseOperation?
    ensures (Precheck(e.command, e.now).None? && Succeeds(Decide(s.db, o, e))) <==> RecordGranted(s.db, o, e)
  {
    hide Inv, TripOf, Operate, Compares, ExpectedIn;
    var t, c := TripOf(s.db, o), e.command;
    SoundFacts(s, o);
    OwnRows(s.db, o);
    var op := c.operation;
    DiffersExactly(t, op.kind, op.assignment, op.packages);
    if Precheck(c, e.now).None? {
      OperateExactly(t, c.who, e.now, op, e.fleet, op.assignment.Some? && op.assignment.value in s.db.assignments, c.id,
                     OperationTaken(s.db, c.id), c.incident, c.incident in s.db.incidents, ExpectedBy(t, op.kind, op.assignment));
    }
  }

  lemma SigningExactly(s: State, o: Id, e: Event)
    requires Inv(s) && o in s.db.orders && Target(s.db, e.command) == Some(o) && e.command.CreateDeliveryReceipt?
    ensures (Precheck(e.command, e.now).None? && Succeeds(Decide(s.db, o, e))) <==> RecordGranted(s.db, o, e)
  {
    hide Inv, TripOf, Acknowledge, ComparesReceipt, ExpectedAtReceipt;
    var t, c := TripOf(s.db, o), e.command;
    SoundFacts(s, o);
    OwnRows(s.db, o);
    ReceiptDiffersExactly(t, c.receipt.packages);
    SignedLate(t, c.receipt.assignment, c.who, c.receipt.packages, e.now, e.fleet);
    if Precheck(c, e.now).None? {
      AcknowledgeExactly(t, c.who, e.now, c.receipt, e.fleet, c.receipt.assignment in s.db.assignments, c.incident,
                         c.incident in s.db.incidents, ExpectedAtReceipt(t));
    }
  }

  lemma SignedLate(t: Trip, a: Id, who: Actor, packages: int, received: Time, fleet: Registry)
    ensures who.role == Client ==> !MaySign(t, a, who, packages, received, fleet)
  {
  }

  lemma InvitingExactly(s: State, o: Id, e: Event)
    requires Inv(s) && o in s.db.orders && Target(s.db, e.command) == Some(o) && e.command.CreateTripHandover?
    ensures (Precheck(e.command, e.now).None? && Succeeds(Decide(s.db, o, e))) <==> RecordGranted(s.db, o, e)
  {
    hide Inv, TripOf, Invite, Suited;
    var t, c := TripOf(s.db, o), e.command;
    SoundFacts(s, o);
    OwnRows(s.db, o);
    if Precheck(c, e.now).None? { InviteExactly(t, c.who, e.now, c.invitation, e.fleet, c.id, c.id in s.db.handovers); }
  }

  lemma AnsweringExactly(s: State, o: Id, e: Event)
    requires Inv(s) && o in s.db.orders && Target(s.db, e.command) == Some(o) && e.command.UpdateTripHandover?
    ensures (Precheck(e.command, e.now).None? && Succeeds(Decide(s.db, o, e))) <==> RecordGranted(s.db, o, e)
  {
    hide Inv, TripOf, Answer, Suited, Unreserved, AssignmentTaken;
    var t, c := TripOf(s.db, o), e.command;
    OwnRows(s.db, o);
    OwnHandover(s.db, c.handover);
    var item := t.handovers[c.handover];
    UntakenExactly(s.db, o, c.id, item.driver, item.vehicle, e.now, item.plannedTo);
    if Precheck(c, e.now).None? {
      AnswerExactly(t, c.handover, c.who, e.now, c.action, e.fleet, c.id,
                    AssignmentTaken(s.db, o, c.id, item.driver, item.vehicle, e.now, item.plannedTo));
    }
  }

  lemma OwnHandover(db: Tables, h: Id)
    requires h in db.handovers && db.handovers[h].order in db.orders
    ensures h in TripOf(db, db.handovers[h].order).handovers
  {
  }

  lemma OwnIncident(db: Tables, i: Id)
    requires i in db.incidents && db.incidents[i].order in db.orders
    ensures i in TripOf(db, db.incidents[i].order).incidents
  {
  }

  lemma ReportingExactly(s: State, o: Id, e: Event)
    requires Inv(s) && o in s.db.orders && Target(s.db, e.command) == Some(o)
    requires e.command.CreateOrderIncident? || e.command.ResolveOrderIncident?
    ensures (Precheck(e.command, e.now).None? && Succeeds(Decide(s.db, o, e))) <==> RecordGranted(s.db, o, e)
  {
    hide Inv, TripOf, Report, Resolve, MayReport, Decides;
    var t := TripOf(s.db, o);
    SoundFacts(s, o);
    OwnRows(s.db, o);
    match e.command {
      case CreateOrderIncident(who, _, report, id) =>
        if Precheck(e.command, e.now).None? { ReportExactly(t, who, e.now, report, e.fleet, id, id in s.db.incidents); }
      case ResolveOrderIncident(who, i, resolution) =>
        OwnIncident(s.db, i);
        if Precheck(e.command, e.now).None? { ResolveExactly(t, i, who, e.now, resolution); }
    }
  }

  lemma RecordsExactly(s: State, o: Id, e: Event)
    requires Inv(s) && o in s.db.orders && Target(s.db, e.command) == Some(o)
    requires !AboutOrder(e.command) && !AboutAssignment(e.command) && !e.command.CreateOrder? && !e.command.FinishRelease?
    ensures (Precheck(e.command, e.now).None? && Succeeds(Decide(s.db, o, e))) <==> RecordGranted(s.db, o, e)
  {
    hide Inv, Precheck, Decide, RecordGranted, Target;
    if e.command.CreateWarehouseOperation? { RecordingExactly(s, o, e); }
    else if e.command.CreateDeliveryReceipt? { SigningExactly(s, o, e); }
    else if e.command.CreateTripHandover? { InvitingExactly(s, o, e); }
    else if e.command.UpdateTripHandover? { AnsweringExactly(s, o, e); }
    else { ReportingExactly(s, o, e); }
  }

  // The reply of a command aimed at an order is that of the verdict.
  lemma ReplyIs(db: Tables, e: Event)
    requires !e.command.CreateOrder? && !e.command.FinishRelease?
    ensures Execute(db, e).reply.None?
            <==> var target := Target(db, e.command);
                 Precheck(e.command, e.now).None? && target.Some? && target.value in db.orders
                 && Succeeds(Decide(db, target.value, e))
  {
    hide Precheck, Decide, Save;
  }

  // In every state each command succeeds exactly when its conditions hold, whichever way its checks
  // are ordered.
  lemma CommandsSucceedExactly(s: State, e: Event)
    requires Inv(s)
    ensures Execute(s.db, e).reply.None? <==> Granted(s.db, e)
  {
    hide Inv, Execute, Precheck, Decide, Target, OrderGranted, AssignmentGranted, RecordGranted, Succeeds;
    if e.command.CreateOrder? {
      CreationExactly(s.db, e);
    } else if e.command.FinishRelease? {
      FinishingSucceeds(s.db, e);
    } else {
      ReplyIs(s.db, e);
      var target := Target(s.db, e.command);
      if target.Some? && target.value in s.db.orders {
        if AboutOrder(e.command) { OrdersExactly(s, target.value, e); }
        else if AboutAssignment(e.command) { AssignmentsExactly(s, target.value, e); }
        else { RecordsExactly(s, target.value, e); }
      }
    }
  }

  lemma FinishingSucceeds(db: Tables, e: Event)
    requires e.command.FinishRelease?
    ensures Execute(db, e).reply.None?
  {
  }
}
