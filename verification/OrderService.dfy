// The commands of the order service as they run: rows are read, checked, changed and written back
// in one transaction, and an early return leaves the tables as they were.
module OrderService {
  import opened Model
  import opened Eligibility
  import opened Trips
  import opened Soundness
  import opened Frames
  import opened Database
  import opened Core
  import opened CoreSafety
  import opened Guarantees
  import opened RowWrites

  class OrderService {
    var db: Tables
    ghost var clock: Time
    ghost var done: set<Id>  // release jobs already processed

    ghost predicate Valid()
      reads this
    {
      Constrained(db)
    }

    ghost function Here(): State
      reads this
    {
      State(db, clock, done)
    }

    constructor ()
      ensures Inv(Here()) && Here() == INITIAL
    {
      db, clock, done := EMPTY, 0, {};
      new;
      InitialHolds();
    }

    // ---- Orders ---------------------------------------------------------------------------------

    static method CheckEndpoint(warehouse: Option<Id>, fleet: Registry) returns (objection: Option<Error>)
      ensures objection == EndpointObjection(warehouse, fleet)
    {
      if warehouse.Some? {
        if warehouse.value !in fleet.warehouses { return Some(NotFound); }
        var row := fleet.warehouses[warehouse.value];
        if !row.active { return Some(WarehouseInactive); }
        if !row.located { return Some(InvalidOrderInput); }
      }
      return None;
    }

    // plan: the outcome of planning the route.
    method CreateOrder(who: Actor, id: Id, draft: DraftRequest, plan: Option<Error>, fleet: Registry) returns (reply: Option<Error>)
      requires Valid()
      modifies this`db
      ensures Outcome(db, reply) ==
        if who.role == DriverRole then Outcome(old(db), Some(Forbidden))
        else if DraftObjection(who, draft, fleet).Some? then Outcome(old(db), DraftObjection(who, draft, fleet))
        else if plan.Some? then Outcome(old(db), plan)
        else if id in old(db).orders then Outcome(old(db), Some(StorageFailure))
        else Outcome(old(db).(orders := old(db).orders[id := NewDraft(id, who, draft, fleet)]), None)
    {
      if who.role == DriverRole { return Some(Forbidden); }
      if who.role == Manager && !Runs(who, draft.origin) { return Some(Forbidden); }
      if (draft.origin.None? && !draft.fromAddress) || (draft.destination.None? && !draft.toAddress)
         || (draft.weight.Some? && draft.weight.value < 0.0) || (draft.volume.Some? && draft.volume.value < 0.0)
         || (draft.pickupFrom.Some? && draft.pickupTo.Some? && draft.pickupFrom.value >= draft.pickupTo.value) {
        return Some(InvalidOrderInput);
      }
      var objection := CheckEndpoint(draft.origin, fleet);
      if objection.Some? { return objection; }
      objection := CheckEndpoint(draft.destination, fleet);
      if objection.Some? { return objection; }
      var addressed := draft.toAddress;
      if draft.destination.Some? { addressed := fleet.warehouses[draft.destination.value].addressed; }
      if plan.Some? { return plan; }
      var weight, volume := 0.0, 0.0;
      if draft.weight.Some? { weight := draft.weight.value; }
      if draft.volume.Some? { volume := draft.volume.value; }
      if id in db.orders { return Some(StorageFailure); }
      var order := Order(id, Some(who.user), None, draft.origin, draft.destination, weight, volume, addressed, true, Draft,
                         draft.pickupFrom, draft.pickupTo, 1, None, None, None, None, None, None, None);
      db := db.(orders := db.orders[id := order]);
      return None;
    }

    static method ChangeDraft(draft: Order, change: DraftChange) returns (order: Order)
      ensures order == ChangedDraft(draft, change)
    {
      order := draft;
      if change.weight.Some? { order := order.(weight := change.weight.value); }
      if change.volume.Some? { order := order.(volume := change.volume.value); }
      if change.pickupFrom.Some? { order := order.(pickupFrom := change.pickupFrom); }
      if change.pickupTo.Some? { order := order.(pickupTo := change.pickupTo); }
    }

    method UpdateDraftOrder(who: Actor, o: Id, change: DraftChange, route: Option<Route>) returns (reply: Option<Error>)
      requires Valid()
      modifies this`db
      ensures Outcome(db, reply) ==
        if who.role == DriverRole then Outcome(old(db), Some(Forbidden))
        else if !change.described && change.weight.None? && change.volume.None? && change.pickupFrom.None? && change.pickupTo.None? then
          Outcome(old(db), Some(InvalidOrderInput))
        else if o !in old(db).orders then Outcome(old(db), Some(NotFound))
        else Settle(old(db), EditDraft(TripOf(old(db), o), who, change, route))
    {
      hide Save, TripOf, Constrained, ChangedDraft, Shippable;
      if who.role == DriverRole { return Some(Forbidden); }
      if !change.described && change.weight.None? && change.volume.None? && change.pickupFrom.None? && change.pickupTo.None? {
        return Some(InvalidOrderInput);
      }
      if o !in db.orders { return Some(NotFound); }
      ReadOrder(db, o);
      if who.role == Client && db.orders[o].createdBy != Some(who.user) { return Some(Forbidden); }
      if who.role == Manager && !Runs(who, db.orders[o].origin) { return Some(Forbidden); }
      if db.orders[o].status != Draft { return Some(InvalidOrderTransition); }
      var order := ChangeDraft(db.orders[o], change);
      if !Shippable(order) { return Some(InvalidOrderInput); }
      if route.None? { return Some(NotFound); }
      if !route.value.complete { return Some(InvalidOrderInput); }
      order := order.(priced := true);
      SaveOrder(db, o, TripOf(db, o).(order := order));
      db := db.(orders := db.orders[o := order]);
      return None;
    }

    // The loop over the three counterparties by identifier; one named twice is looked up once.
    static method CheckParties(who: Actor, createdBy: Option<Id>, request: PartyRequest, fleet: Registry)
      returns (objection: Option<Error>)
      ensures objection == PartyObjection(who, createdBy, request, fleet)
    {
      var ids := ByIdentifier(request);
      var parties: map<Id, Party> := map[];
      for i := 0 to |ids|
        invariant FirstRefusal(who, createdBy, ids, fleet) == FirstRefusal(who, createdBy, ids[i..], fleet)
        invariant forall p :: p in parties ==>
                    p in fleet.parties && parties[p] == fleet.parties[p] && PartyRefusal(who, createdBy, p, fleet).None?
        invariant forall j :: 0 <= j < i ==> ids[j] in parties
      {
        var id := ids[i];
        assert ids[i..][1..] == ids[i + 1..];
        if id in parties { continue; }
        if id !in fleet.parties { return Some(NotFound); }
        var party := fleet.parties[id];
        var allowed := who.role == Admin || party.shared || party.owner == who.user;
        if who.role == Manager && createdBy.Some? && party.owner == createdBy.value { allowed := true; }
        if !allowed { return Some(Forbidden); }
        if !party.active { return Some(CounterpartyArchived); }
        parties := parties[id := party];
      }
      assert request.carrier in ids && request.carrier in parties;
      if parties[request.carrier].individual { return Some(InvalidOrderInput); }
      return None;
    }

    method SetTransportDetails(who: Actor, o: Id, packages: int, texts: bool, parties: PartyRequest, fleet: Registry)
      returns (reply: Option<Error>)
      requires Valid()
      modifies this`db
      ensures Outcome(db, reply) ==
        if who.role == DriverRole then Outcome(old(db), Some(Forbidden))
        else if !texts || packages < 1 then Outcome(old(db), Some(InvalidOrderInput))
        else if o !in old(db).orders then Outcome(old(db), Some(NotFound))
        else Settle(old(db), SetDetails(TripOf(old(db), o), who, packages,
                                         PartyObjection(who, TripOf(old(db), o).order.createdBy, parties, fleet)))
    {
      hide Save, TripOf, Constrained;
      if who.role == DriverRole { return Some(Forbidden); }
      if !texts || packages < 1 { return Some(InvalidOrderInput); }
      if o !in db.orders { return Some(NotFound); }
      ReadOrder(db, o);
      var order := db.orders[o];
      if who.role == Client && order.createdBy != Some(who.user) { return Some(Forbidden); }
      if who.role == Manager && !Runs(who, order.origin) { return Some(Forbidden); }
      if order.status != Draft { return Some(InvalidOrderTransition); }
      var objection := CheckParties(who, order.createdBy, parties, fleet);
      if objection.Some? { return objection; }
      order := order.(declared := Some(packages), policy := 1);
      SaveOrder(db, o, TripOf(db, o).(order := order));
      db := db.(orders := db.orders[o := order]);
      return None;
    }

    method SubmitOrder(who: Actor, o: Id, route: Option<Route>, now: Time) returns (reply: Option<Error>)
      requires Valid()
      modifies this`db
      ensures Outcome(db, reply) ==
        if o !in old(db).orders then Outcome(old(db), Some(NotFound))
        else Settle(old(db), Submit(TripOf(old(db), o), who, now, route))
    {
      hide Save, TripOf, Constrained;
      if o !in db.orders { return Some(NotFound); }
      ReadOrder(db, o);
      var order := db.orders[o];
      if who.role != Manager && who.role != Admin && (who.role != Client || order.createdBy != Some(who.user)) {
        return Some(Forbidden);
      }
      if who.role == Manager && !Runs(who, order.origin) { return Some(Forbidden); }
      if !CanTransition(order.status, Ready) { return Some(InvalidOrderTransition); }
      if !order.addressed || order.weight < 0.0 || order.volume < 0.0 || order.pickupFrom.None? || order.pickupTo.None?
         || order.pickupFrom.value >= order.pickupTo.value {
        return Some(InvalidTimeWindow);
      }
      if route.None? { return Some(NotFound); }
      if !order.priced || !route.value.complete { return Some(InvalidOrderInput); }
      if order.policy == 1 && order.declared.None? { return Some(TransportDetailsRequired); }
      var log := LogOf(db, o) + [StatusChange(order.status, Ready, who.user, None, now)];
      order := order.(status := Ready, submittedAt := Some(now));
      SaveOrder(db, o, TripOf(db, o).(order := order, history := log));
      db := db.(orders := db.orders[o := order], history := db.history[o := log]);
      return None;
    }

    method CancelOrder(who: Actor, o: Id, reason: Option<string>, now: Time, fleet: Registry) returns (reply: Option<Error>)
      requires Valid()
      modifies this`db
      ensures Outcome(db, reply) ==
        if who.role == DriverRole then Outcome(old(db), Some(Forbidden))
        else if o !in old(db).orders then Outcome(old(db), Some(NotFound))
        else Settle(old(db), Cancel(TripOf(old(db), o), who, now, if reason.Some? then Some(Code(reason.value)) else None, fleet))
    {
      hide Save, TripOf, Constrained, Cancel, Cancellable, EffectiveIn, Vacated;
      if who.role == DriverRole { return Some(Forbidden); }
      if o !in db.orders { return Some(NotFound); }
      ReadOrder(db, o);
      var order := db.orders[o];
      var held := set a | a in db.assignments && db.assignments[a].order == o
                          && (db.assignments[a].status == Pending || db.assignments[a].status == Accepted);
      ghost var t := TripOf(db, o);
      var cause := if reason.Some? then Some(Code(reason.value)) else None;
      HeldRead(db, o, held);
      if |held| > 1 {
        CancelMany(t, who, now, cause, fleet);
        return Some(AssignmentStale);
      }
      var seat: Option<Id> := None;
      if held != {} {
        var a :| a in held;
        seat := Some(a);
      }
      assert Cancellable(t) == Seats(seat) by { Few(held); }
      CancelAt(t, who, now, cause, fleet, seat);
      if seat.Some? && db.assignments[seat.value].driver !in fleet.drivers { return Some(DriverNotEligible); }
      if seat.Some? && db.assignments[seat.value].vehicle !in fleet.vehicles { return Some(VehicleNotOperational); }
      if who.role == Manager && !Runs(who, order.origin) { return Some(Forbidden); }
      if who.role == Client && (order.createdBy != Some(who.user) || (order.status != Draft && order.status != Ready)) {
        return Some(Forbidden);
      }
      if seat.Some? { JournalRead(db, o, Load, seat); }
      if seat.Some? && EffectiveIn(db.operations, o, seat.value) { return Some(WarehouseOperationConflict); }
      if !CanTransition(order.status, Cancelled) { return Some(InvalidOrderTransition); }
      var log := LogOf(db, o) + [StatusChange(order.status, Cancelled, who.user, cause, now)];
      order := order.(status := Cancelled, cancelledAt := Some(now));
      SaveCancelled(db, o, Vacated(t, seat, now).(order := order, history := log), seat, now);
      var tx := db.(orders := db.orders[o := order], history := db.history[o := log]);
      if seat.Some? {
        var assignment := ReleasedRow(db.assignments[seat.value], OrderCancelled, now);
        tx := tx.(assignments := tx.assignments[seat.value := assignment], queue := Queued(tx.queue, seat.value, assignment));
      }
      db := tx;
      return None;
    }

    // ---- Assignments ----------------------------------------------------------------------------

    method AcceptAssignment(who: Actor, a: Id, now: Time, fleet: Registry) returns (reply: Option<Error>)
      requires Valid()
      modifies this`db
      ensures Outcome(db, reply) ==
        if who.role != DriverRole then Outcome(old(db), Some(Forbidden))
        else if a !in old(db).assignments then Outcome(old(db), Some(NotFound))
        else Settle(old(db), Accept(TripOf(old(db), old(db).assignments[a].order), a, who, now, fleet))
    {
      hide Save, TripOf, Objection, Constrained;
      if who.role != DriverRole { return Some(Forbidden); }
      if a !in db.assignments { return Some(NotFound); }
      ReadAssignment(db, a);
      var assignment := db.assignments[a];
      var o := assignment.order;
      var order := db.orders[o];
      if assignment.driver !in fleet.drivers { return Some(DriverNotEligible); }
      if assignment.vehicle !in fleet.vehicles { return Some(VehicleNotOperational); }
      if fleet.drivers[assignment.driver].user != who.user { return Some(Forbidden); }
      if assignment.status != Pending { return Some(AssignmentStale); }
      if now >= assignment.offerExpiresAt {
        assignment := assignment.(status := Expired);
        SaveMove(db, o, TripOf(db, o).(assignments := AssignmentsOf(db.assignments, o)[a := assignment]), {a}, a, assignment);
        db := db.(assignments := db.assignments[a := assignment], queue := Queued(db.queue, a, assignment));
        return Some(AssignmentExpired);
      }
      if order.status != Ready { return Some(InvalidOrderTransition); }
      var objection := ValidateAssignmentResources(order, fleet.drivers[assignment.driver], fleet.vehicles[assignment.vehicle],
                                                   assignment.plannedFrom, assignment.plannedTo);
      if objection.Some? { return objection; }
      assignment := assignment.(status := Accepted, acceptedAt := Some(now));
      order := order.(status := Assigned, driver := Some(assignment.driver), assignedAt := Some(now));
      var log := LogOf(db, o) + [StatusChange(Ready, Assigned, who.user, None, now)];
      SaveMove(db, o, TripOf(db, o).(order := order, assignments := AssignmentsOf(db.assignments, o)[a := assignment], history := log),
               {}, a, assignment);
      db := db.(orders := db.orders[o := order], assignments := db.assignments[a := assignment], history := db.history[o := log]);
      return None;
    }

    method RejectAssignment(who: Actor, a: Id, now: Time, fleet: Registry) returns (reply: Option<Error>)
      requires Valid()
      modifies this`db
      ensures Outcome(db, reply) ==
        if who.role != DriverRole then Outcome(old(db), Some(Forbidden))
        else if a !in old(db).assignments then Outcome(old(db), Some(NotFound))
        else Settle(old(db), Reject(TripOf(old(db), old(db).assignments[a].order), a, who, now, fleet))
    {
      hide Save, TripOf, Constrained;
      if who.role != DriverRole { return Some(Forbidden); }
      if a !in db.assignments { return Some(NotFound); }
      ReadAssignment(db, a);
      var assignment := db.assignments[a];
      var o := assignment.order;
      if assignment.driver !in fleet.drivers { return Some(DriverNotEligible); }
      if assignment.vehicle !in fleet.vehicles { return Some(VehicleNotOperational); }
      if fleet.drivers[assignment.driver].user != who.user { return Some(Forbidden); }
      if assignment.status != Pending { return Some(AssignmentStale); }
      assignment := assignment.(status := Rejected, rejectedAt := Some(now));
      SaveMove(db, o, TripOf(db, o).(assignments := AssignmentsOf(db.assignments, o)[a := assignment]), {a}, a, assignment);
      db := db.(assignments := db.assignments[a := assignment], queue := Queued(db.queue, a, assignment));
      return None;
    }

    // expireAssignmentByID: the offer is read again under its locks before it is closed.
    method ExpireAssignment(a: Id, now: Time, fleet: Registry) returns (reply: Option<Error>)
      requires Valid()
      modifies this`db
      ensures Outcome(db, reply) ==
        if a !in old(db).assignments then Outcome(old(db), Some(NotFound))
        else Settle(old(db), Expire(TripOf(old(db), old(db).assignments[a].order), a, now, fleet))
    {
      hide Save, TripOf, Constrained;
      if a !in db.assignments { return Some(NotFound); }
      ReadAssignment(db, a);
      var assignment := db.assignments[a];
      var o := assignment.order;
      if assignment.driver !in fleet.drivers { return Some(DriverNotEligible); }
      if assignment.vehicle !in fleet.vehicles { return Some(VehicleNotOperational); }
      if assignment.status != Pending || now < assignment.offerExpiresAt {
        SaveOrder(db, o, TripOf(db, o));
        assert db.orders[o := db.orders[o]] == db.orders;
        return None;
      }
      assignment := assignment.(status := Expired);
      SaveMove(db, o, TripOf(db, o).(assignments := AssignmentsOf(db.assignments, o)[a := assignment]), {a}, a, assignment);
      db := db.(assignments := db.assignments[a := assignment], queue := Queued(db.queue, a, assignment));
      return None;
    }

    method StartAssignment(who: Actor, a: Id, now: Time, fleet: Registry) returns (reply: Option<Error>)
      requires Valid()
      modifies this`db
      ensures Outcome(db, reply) ==
        if who.role != DriverRole then Outcome(old(db), Some(Forbidden))
        else if a !in old(db).assignments then Outcome(old(db), Some(NotFound))
        else Settle(old(db), Start(TripOf(old(db), old(db).assignments[a].order), a, who, now, fleet))
    {
      hide Save, TripOf, Constrained, Performed, HasOpenIncident, IncidentIsOpen;
      if who.role != DriverRole { return Some(Forbidden); }
      if a !in db.assignments { return Some(NotFound); }
      ReadAssignment(db, a);
      var assignment := db.assignments[a];
      var o := assignment.order;
      var order := db.orders[o];
      if assignment.driver !in fleet.drivers { return Some(DriverNotEligible); }
      if assignment.vehicle !in fleet.vehicles { return Some(VehicleNotOperational); }
      if fleet.drivers[assignment.driver].user != who.user { return Some(Forbidden); }
      if assignment.status != Accepted || !CanTransition(order.status, InTransit) { return Some(InvalidOrderTransition); }
      OpenIncidentRead(db, o);
      if IncidentIsOpen(db.incidents, o) { return Some(IncidentOpen); }
      JournalRead(db, o, Load, Some(a));
      if order.origin.Some? && OpKey(o, Load, Some(a)) !in db.operations { return Some(WarehouseOperationRequired); }
      var log := LogOf(db, o) + [StatusChange(order.status, InTransit, who.user, None, now)];
      assignment := assignment.(status := Active, startedAt := Some(now));
      order := order.(status := InTransit, startedAt := Some(now));
      SaveMove(db, o, TripOf(db, o).(order := order, assignments := AssignmentsOf(db.assignments, o)[a := assignment], history := log),
               {}, a, assignment);
      db := db.(orders := db.orders[o := order], assignments := db.assignments[a := assignment], history := db.history[o := log]);
      return None;
    }

    method ArriveAssignment(who: Actor, a: Id, now: Time, fleet: Registry) returns (reply: Option<Error>)
      requires Valid()
      modifies this`db
      ensures Outcome(db, reply) ==
        if who.role != DriverRole then Outcome(old(db), Some(Forbidden))
        else if a !in old(db).assignments then Outcome(old(db), Some(NotFound))
        else Settle(old(db), Arrive(TripOf(old(db), old(db).assignments[a].order), a, who, now, fleet))
    {
      hide Save, TripOf, Constrained;
      if who.role != DriverRole { return Some(Forbidden); }
      if a !in db.assignments { return Some(NotFound); }
      ReadAssignment(db, a);
      var assignment := db.assignments[a];
      var o := assignment.order;
      var order := db.orders[o];
      if assignment.driver !in fleet.drivers { return Some(DriverNotEligible); }
      if assignment.vehicle !in fleet.vehicles { return Some(VehicleNotOperational); }
      if fleet.drivers[assignment.driver].user != who.user { return Some(Forbidden); }
      if assignment.status != Active || !CanTransition(order.status, Arrived) { return Some(InvalidOrderTransition); }
      var log := LogOf(db, o) + [StatusChange(order.status, Arrived, who.user, None, now)];
      order := order.(status := Arrived, arrivedAt := Some(now));
      SaveOrder(db, o, TripOf(db, o).(order := order, history := log));
      db := db.(orders := db.orders[o := order], history := db.history[o := log]);
      return None;
    }

    method CompleteAssignment(who: Actor, a: Id, request: CompleteRequest, now: Time, fleet: Registry) returns (reply: Option<Error>)
      requires Valid()
      modifies this`db
      ensures Outcome(db, reply) ==
        if who.role == Client then Outcome(old(db), Some(Forbidden))
        else if a !in old(db).assignments then Outcome(old(db), Some(NotFound))
        else Settle(old(db), Complete(TripOf(old(db), old(db).assignments[a].order), a, who, now, request, fleet))
    {
      hide Save, TripOf, Constrained, Performed, HasOpenIncident, IncidentIsOpen;
      if who.role == Client { return Some(Forbidden); }
      if a !in db.assignments { return Some(NotFound); }
      ReadAssignment(db, a);
      var assignment := db.assignments[a];
      var o := assignment.order;
      var order := db.orders[o];
      ReadOrder(db, o);
      if assignment.driver !in fleet.drivers { return Some(DriverNotEligible); }
      if assignment.vehicle !in fleet.vehicles { return Some(VehicleNotOperational); }
      if who.role == DriverRole && fleet.drivers[assignment.driver].user != who.user { return Some(Forbidden); }
      if who.role == Manager {
        var responsible := order.origin;
        if order.destination.Some? { responsible := order.destination; }
        if !Runs(who, responsible) { return Some(Forbidden); }
      }
      if assignment.status != Active || !CanTransition(order.status, OrderStatus.Completed) { return Some(InvalidOrderTransition); }
      OpenIncidentRead(db, o);
      if IncidentIsOpen(db.incidents, o) { return Some(IncidentOpen); }
      JournalRead(db, o, Unload, Some(a));
      if order.destination.Some? {
        if who.role == DriverRole { return Some(Forbidden); }
        if OpKey(o, Unload, Some(a)) !in db.operations { return Some(WarehouseOperationRequired); }
      }
      if o !in db.receipts && order.policy == 1 { return Some(DeliveryReceiptRequired); }
      if o in db.receipts {
        if db.receipts[o].assignment != a { return Some(AssignmentStale); }
        if request.recipient.Some? && request.recipient.value != db.receipts[o].recipient { return Some(InvalidOrderInput); }
      }
      if !request.texts { return Some(InvalidOrderInput); }
      var log := LogOf(db, o) + [StatusChange(order.status, OrderStatus.Completed, who.user, None, now)];
      assignment := assignment.(status := AssignmentStatus.Completed, completedAt := Some(now));
      order := order.(status := OrderStatus.Completed, deliveredAt := Some(now));
      SaveMove(db, o, TripOf(db, o).(order := order, assignments := AssignmentsOf(db.assignments, o)[a := assignment], history := log),
               {a}, a, assignment);
      db := db.(orders := db.orders[o := order], assignments := db.assignments[a := assignment], history := db.history[o := log],
                queue := Queued(db.queue, a, assignment));
      return None;
    }

    // The transaction that makes an offer, in place of another assignment when one is named. The
    // replaced row is released first, so that the new one meets the constraints without it.
    method CreateAssignment(who: Actor, o: Id, offer: OfferRequest, stored: Option<StoredRecommendation>, id: Id,
                            now: Time, fleet: Registry)
      returns (reply: Option<Error>)
      requires Valid()
      modifies this`db
      ensures Outcome(db, reply) ==
        if who.role != Manager && who.role != Admin then Outcome(old(db), Some(Forbidden))
        else if o !in old(db).orders then
          Outcome(old(db), Some(if who.role == Admin && (offer.plannedFrom >= offer.plannedTo || offer.plannedFrom < now)
                                then InvalidTimeWindow else NotFound))
        else Settle(old(db), Offer(TripOf(old(db), o), who, now, offer, fleet, stored, id,
                                   AssignmentTaken(old(db), o, id, offer.driver, offer.vehicle, offer.plannedFrom, offer.plannedTo)))
    {
      hide Save, TripOf, Constrained, Objection, Recommended, AssignmentTaken, EffectiveIn, HasOpenAssignment;
      if who.role != Manager && who.role != Admin { return Some(Forbidden); }
      if who.role == Manager && o !in db.orders { return Some(NotFound); }
      if who.role == Manager && !Touches(db.orders[o], who.warehouse) {
        ReadOrder(db, o);
        return Some(Forbidden);
      }
      if offer.plannedFrom >= offer.plannedTo || offer.plannedFrom < now {
        if o in db.orders { ReadOrder(db, o); }
        return Some(InvalidTimeWindow);
      }
      if o !in db.orders { return Some(NotFound); }
      ReadOrder(db, o);
      var order := db.orders[o];
      var p := offer.supersedes;
      if p.Some? && (p.value !in db.assignments || db.assignments[p.value].order != o) { return Some(AssignmentStale); }
      if offer.driver !in fleet.drivers || (p.Some? && db.assignments[p.value].driver !in fleet.drivers) {
        return Some(DriverNotEligible);
      }
      if offer.vehicle !in fleet.vehicles || (p.Some? && db.assignments[p.value].vehicle !in fleet.vehicles) {
        return Some(VehicleNotOperational);
      }
      if who.role == Manager && !Runs(who, order.origin) { return Some(Forbidden); }
      if p.None? {
        if order.status != Ready { return Some(InvalidOrderTransition); }
      } else {
        JournalRead(db, o, Load, p);
        if EffectiveIn(db.operations, o, p.value) { return Some(WarehouseOperationConflict); }
        if db.assignments[p.value].status != Pending && db.assignments[p.value].status != Accepted { return Some(AssignmentStale); }
        if order.status != Ready && order.status != Assigned { return Some(InvalidOrderTransition); }
      }
      var objection := ValidateAssignmentResources(order, fleet.drivers[offer.driver], fleet.vehicles[offer.vehicle],
                                                   offer.plannedFrom, offer.plannedTo);
      if objection.Some? { return objection; }
      if offer.source == UnknownSource { return Some(AssignmentStale); }
      if offer.source == DispatchRecommendation && !Recommended(TripOf(db, o), offer, stored) { return Some(AssignmentStale); }
      var tx := db;
      if p.Some? {
        tx := tx.(assignments := tx.assignments[p.value := ReleasedRow(tx.assignments[p.value], Reassigned, now)]);
        if order.status == Assigned {
          var log := LogOf(db, o) + [StatusChange(Assigned, Ready, who.user, Some(Because(Reassigned)), now)];
          order := order.(status := Ready, driver := None, assignedAt := None);
          tx := tx.(orders := tx.orders[o := order], history := tx.history[o := log]);
        }
      }
      var assignment := OfferRow(o, who, now, offer);
      var taken := AssignmentTaken(db, o, id, offer.driver, offer.vehicle, offer.plannedFrom, offer.plannedTo);
      TakenId(db, o, id, offer.driver, offer.vehicle, offer.plannedFrom, offer.plannedTo);
      if p.Some? {
        SaveOfferInstead(db, o, p.value, who.user, now, id, assignment, taken);
        assert tx == Withdrawn(db, o, p.value, who.user, now);
      } else {
        SaveOffer(db, o, id, assignment, taken);
      }
      hide Withdrawn, Withdraw, Blocked, OfferRow;
      if taken || HasOpenAssignment(tx.assignments, o) { return Some(ResourceAlreadyReserved); }
      tx := tx.(assignments := tx.assignments[id := assignment]);
      if p.Some? { tx := tx.(queue := Queued(tx.queue, p.value, tx.assignments[p.value])); }
      db := tx;
      return None;
    }

    // ---- Warehouse operations --------------------------------------------------------------------

    method CheckOperation(who: Actor, o: Id, request: OperationRequest, fleet: Registry) returns (objection: Option<Error>)
      requires Valid() && o in db.orders
      ensures objection == OperationObjection(TripOf(db, o), who, request, fleet,
                                              request.assignment.Some? && request.assignment.value in db.assignments)
      ensures objection.None? ==> Site(db.orders[o], request.kind).Some?
      ensures objection.None? && request.kind == UndoLoad ==>
                request.assignment.Some? && request.assignment.value in db.assignments
                && db.assignments[request.assignment.value].order == o
    {
      hide TripOf, Constrained, EffectiveIn, HasOpenIncident, IncidentIsOpen;
      ReadOrder(db, o);
      var order, kind := db.orders[o], request.kind;
      var site := order.origin;
      if kind == Unload { site := order.destination; }
      if site.None? { return Some(InvalidOrderInput); }
      if who.role == Manager && !Runs(who, site) { return Some(Forbidden); }
      JournalRead(db, o, Receive, None);
      if kind == Receive || kind == ReturnToSender {
        if request.assignment.Some? { return Some(InvalidOrderInput); }
        if kind == Receive {
          if order.status != Ready && order.status != Assigned { return Some(InvalidOrderTransition); }
        } else {
          if order.status != Cancelled { return Some(InvalidOrderTransition); }
          if OpKey(o, Receive, None) !in db.operations { return Some(WarehouseOperationRequired); }
        }
      } else {
        if request.assignment.None? { return Some(InvalidOrderInput); }
        var a := request.assignment.value;
        if a !in db.assignments { return Some(NotFound); }
        if db.assignments[a].order != o { return Some(WarehouseOperationConflict); }
        var assignment := db.assignments[a];
        if kind == Load || kind == UndoLoad {
          if order.status != Assigned || assignment.status != Accepted { return Some(InvalidOrderTransition); }
          if OpKey(o, Receive, None) !in db.operations { return Some(WarehouseOperationRequired); }
          if kind == Load {
            OpenIncidentRead(db, o);
            if IncidentIsOpen(db.incidents, o) { return Some(IncidentOpen); }
          } else {
            JournalRead(db, o, Load, Some(a));
            if !EffectiveIn(db.operations, o, a) { return Some(WarehouseOperationRequired); }
          }
        } else if order.status != Arrived || assignment.status != Active {
          return Some(InvalidOrderTransition);
        }
        if kind == UndoLoad && (assignment.driver !in fleet.drivers || assignment.vehicle !in fleet.vehicles) {
          return Some(NotFound);
        }
      }
      if site.value !in fleet.warehouses { return Some(NotFound); }
      if (kind == Receive || kind == Load) && !fleet.warehouses[site.value].active { return Some(WarehouseInactive); }
      return None;
    }

    method CreateWarehouseOperation(who: Actor, o: Id, request: OperationRequest, id: Id, incident: Id, now: Time, fleet: Registry)
      returns (reply: Option<Error>)
      requires Valid()
      modifies this`db
      ensures Outcome(db, reply) ==
        if who.role != Manager && who.role != Admin then Outcome(old(db), Some(Forbidden))
        else if request.packages < 0 || ((request.kind == Receive || request.kind == Load) && request.packages == 0) || !request.texts then
          Outcome(old(db), Some(InvalidOrderInput))
        else if o !in old(db).orders then Outcome(old(db), Some(NotFound))
        else Settle(old(db), Operate(TripOf(old(db), o), who, now, request, fleet,
                                     request.assignment.Some? && request.assignment.value in old(db).assignments,
                                     id, OperationTaken(old(db), id), incident, incident in old(db).incidents))
    {
      hide Save, TripOf, Constrained, OperationObjection, ExpectedIn, OperationTaken;
      if who.role != Manager && who.role != Admin { return Some(Forbidden); }
      if request.packages < 0 || ((request.kind == Receive || request.kind == Load) && request.packages == 0) || !request.texts {
        return Some(InvalidOrderInput);
      }
      if o !in db.orders { return Some(NotFound); }
      ReadOrder(db, o);
      var objection := CheckOperation(who, o, request, fleet);
      if objection.Some? { return objection; }
      var order, kind := db.orders[o], request.kind;
      var site := Site(order, kind);
      var k := OpKey(o, kind, request.assignment);
      JournalRead(db, o, kind, request.assignment);
      if OperationTaken(db, id) || k in db.operations { return Some(WarehouseOperationConflict); }
      var operation := Operation(id, site.value, request.packages, who.user, now);
      var tx := db.(operations := db.operations[k := operation]);
      var expected := ExpectedCount(db, o, kind, request.assignment);
      SaveEntered(db, o, k, operation, OfOperation(id), expected, site, incident, who.user, now);
      if expected.Some? && expected.value != request.packages {
        if incident in db.incidents { return Some(StorageFailure); }
        tx := tx.(incidents := tx.incidents[incident := Incident(
          o, request.assignment, site, OfOperation(id), QuantityDiscrepancy, expected, Some(request.packages), true, Unresolved,
          who.user, now, None, None)]);
      }
      if kind == UndoLoad {
        var a := request.assignment.value;
        var assignment := ReleasedRow(db.assignments[a], LoadingUndone, now);
        order := order.(status := Ready, driver := None, assignedAt := None);
        var log := LogOf(db, o) + [StatusChange(db.orders[o].status, Ready, who.user, Some(Because(LoadingUndone)), now)];
        SaveUnloaded(db, o, k, operation, OfOperation(id), expected, site, incident, who.user, now, a, order, assignment, log);
        tx := tx.(orders := tx.orders[o := order], assignments := tx.assignments[a := assignment],
                  history := tx.history[o := log], queue := Queued(tx.queue, a, assignment));
      }
      db := tx;
      return None;
    }

    // ---- Incidents and the delivery receipt ---------------------------------------------------------

    // The accepted or active assignment of the order: one row at most.
    method ServingRow(o: Id) returns (server: Option<Id>)
      requires Valid() && o in db.orders
      ensures server == Server(TripOf(db, o))
      ensures server.Some? ==> server.value in db.assignments && db.assignments[server.value].order == o
                               && TripOf(db, o).assignments[server.value] == db.assignments[server.value]
    {
      hide Constrained;
      if a :| a in db.assignments && db.assignments[a].order == o && Serving(db.assignments[a]) {
        ServerIs(db, o, a);
        server := Some(a);
      } else {
        NoServer(db, o);
        server := None;
      }
    }

    method CreateOrderIncident(who: Actor, o: Id, request: IncidentRequest, id: Id, now: Time, fleet: Registry)
      returns (reply: Option<Error>)
      requires Valid()
      modifies this`db
      ensures Outcome(db, reply) ==
        if !request.texts || !NonNegative(request.expected) || !NonNegative(request.actual)
           || (request.kind == QuantityDiscrepancy && !Differ(request.expected, request.actual)) then
          Outcome(old(db), Some(InvalidOrderInput))
        else if o !in old(db).orders then Outcome(old(db), Some(NotFound))
        else Settle(old(db), Report(TripOf(old(db), o), who, now, request, fleet, id, id in old(db).incidents))
    {
      hide Save, TripOf, Constrained, Server;
      if !request.texts || !NonNegative(request.expected) || !NonNegative(request.actual)
         || (request.kind == QuantityDiscrepancy && !Differ(request.expected, request.actual)) {
        return Some(InvalidOrderInput);
      }
      if o !in db.orders { return Some(NotFound); }
      ReadOrder(db, o);
      var order := db.orders[o];
      if who.role == Client && order.createdBy != Some(who.user) { return Some(Forbidden); }
      if who.role == Manager && !Touches(order, who.warehouse) { return Some(Forbidden); }
      var server := ServingRow(o);
      if who.role == DriverRole {
        if server.None? { return Some(Forbidden); }
        var driver := db.assignments[server.value].driver;
        if driver !in fleet.drivers { return Some(StorageFailure); }
        if fleet.drivers[driver].user != who.user { return Some(Forbidden); }
      }
      if order.status != Ready && order.status != Assigned && order.status != InTransit && order.status != Arrived {
        return Some(InvalidOrderTransition);
      }
      if (request.kind == VehicleBreakdown && server.None?) || (request.kind == RecipientRefusal && order.status != Arrived) {
        return Some(InvalidOrderTransition);
      }
      var warehouse := order.origin;
      if order.status == Arrived && request.kind != VehicleBreakdown && order.destination.Some? { warehouse := order.destination; }
      FreshIncident(db, o, id);
      if id in db.incidents { return Some(StorageFailure); }
      var row := Incident(o, server, warehouse, Reported, request.kind, Natural(request.expected), Natural(request.actual),
                          true, Unresolved, who.user, now, None, None);
      SaveIncident(db, o, id, row);
      db := db.(incidents := db.incidents[id := row]);
      return None;
    }

    // The switch over the kinds of incident.
    method SettledBy(o: Id, item: Incident, request: ResolveRequest) returns (valid: bool)
      requires Valid() && o in db.orders && item.order == o
      requires item.assignment.Some? && item.assignment.value in db.assignments ==> db.assignments[item.assignment.value].order == o
      ensures valid == Settles(TripOf(db, o), item, request)
    {
      valid := false;
      ReadOrder(db, o);
      match item.kind {
        case QuantityDiscrepancy => valid := request.resolution == AcceptDiscrepancy;
        case CargoDamage => valid := request.resolution == AcceptWithRemarks || request.resolution == Remediated;
        case OtherIncident => valid := request.resolution == Remediated;
        case VehicleBreakdown =>
          valid := request.resolution == Repaired;
          if request.resolution == ResourcesReplaced && item.assignment.Some? {
            ReplacedRead(db, o, item.assignment.value);
            valid := ReplacedIn(db.assignments, item.assignment.value);
          }
        case RecipientRefusal =>
          valid := request.resolution == RecipientAccepted && request.recipient != "" && db.orders[o].status == Arrived;
          if valid && db.orders[o].destination.Some? {
            UnloadedRead(db, o);
            valid := UnloadedIn(db, o);
          }
      }
    }

    method ResolveOrderIncident(who: Actor, i: Id, request: ResolveRequest, now: Time) returns (reply: Option<Error>)
      requires Valid()
      modifies this`db
      ensures Outcome(db, reply) ==
        if who.role != Manager && who.role != Admin then Outcome(old(db), Some(Forbidden))
        else if !request.texts then Outcome(old(db), Some(InvalidOrderInput))
        else if i !in old(db).incidents then Outcome(old(db), Some(NotFound))
        else Settle(old(db), Resolve(TripOf(old(db), old(db).incidents[i].order), i, who, now, request))
    {
      hide Save, TripOf, Settles;
      if who.role != Manager && who.role != Admin { return Some(Forbidden); }
      if !request.texts { return Some(InvalidOrderInput); }
      if i !in db.incidents { return Some(NotFound); }
      ReadIncident(db, i);
      var item := db.incidents[i];
      var o := item.order;
      if who.role == Manager && !Runs(who, item.warehouse) { return Some(Forbidden); }
      if !item.open { return Some(IncidentStale); }
      var valid := SettledBy(o, item, request);
      if !valid { return Some(IncidentResolutionInvalid); }
      item := item.(open := false, resolution := request.resolution, resolvedBy := Some(who.user), resolvedAt := Some(now));
      SaveIncident(db, o, i, item);
      db := db.(incidents := db.incidents[i := item]);
      return None;
    }

    method CreateDeliveryReceipt(who: Actor, o: Id, request: ReceiptRequest, incident: Id, now: Time, fleet: Registry)
      returns (reply: Option<Error>)
      requires Valid()
      modifies this`db
      ensures Outcome(db, reply) ==
        if who.role == Client then Outcome(old(db), Some(Forbidden))
        else if !request.texts || request.packages < 0
                || (request.receivedAt.Some? && request.receivedAt.value > now + 5 * MINUTE) then
          Outcome(old(db), Some(InvalidOrderInput))
        else if o !in old(db).orders then Outcome(old(db), Some(NotFound))
        else Settle(old(db), Acknowledge(TripOf(old(db), o), who, now, request, fleet, request.assignment in old(db).assignments,
                                         incident, incident in old(db).incidents))
    {
      hide Save, TripOf, Constrained, LatestLoadIn;
      if who.role == Client { return Some(Forbidden); }
      if !request.texts || request.packages < 0 || (request.receivedAt.Some? && request.receivedAt.value > now + 5 * MINUTE) {
        return Some(InvalidOrderInput);
      }
      if o !in db.orders { return Some(NotFound); }
      ReadOrder(db, o);
      var order, a := db.orders[o], request.assignment;
      var received := now;
      if request.receivedAt.Some? { received := request.receivedAt.value; }
      if a !in db.assignments { return Some(NotFound); }
      if db.assignments[a].order != o { return Some(AssignmentStale); }
      var assignment := db.assignments[a];
      if who.role == DriverRole {
        if assignment.driver !in fleet.drivers { return Some(StorageFailure); }
        if fleet.drivers[assignment.driver].user != who.user || order.destination.Some? { return Some(Forbidden); }
      }
      if who.role == Manager {
        var responsible := order.origin;
        if order.destination.Some? { responsible := order.destination; }
        if !Runs(who, responsible) { return Some(Forbidden); }
      }
      if order.status != Arrived || assignment.status != Active || order.arrivedAt.None? { return Some(InvalidOrderTransition); }
      if received < order.arrivedAt.value { return Some(InvalidOrderInput); }
      if o in db.receipts { return Some(DeliveryReceiptConflict); }
      var expected: Option<nat> := None;
      JournalRead(db, o, Unload, Some(a));
      if order.destination.Some? {
        if OpKey(o, Unload, Some(a)) !in db.operations { return Some(WarehouseOperationRequired); }
        if db.operations[OpKey(o, Unload, Some(a))].packages != request.packages { return Some(InvalidOrderInput); }
      } else {
        var loaded := ExpectedCount(db, o, Unload, Some(a));
        expected := if loaded.Some? then loaded else order.declared;
      }
      var receipt := Receipt(a, request.recipient, request.packages, received, now, who.user);
      var tx := db.(receipts := db.receipts[o := receipt]);
      FreshIncident(db, o, incident);
      SaveSigned(db, o, receipt, expected, order.origin, incident, who.user, now);
      if expected.Some? && expected.value != request.packages {
        if incident in db.incidents { return Some(StorageFailure); }
        tx := tx.(incidents := tx.incidents[incident := Incident(
          o, Some(a), order.origin, OfReceipt, QuantityDiscrepancy, expected, Some(request.packages), true, Unresolved,
          who.user, now, None, None)]);
      }
      db := tx;
      return None;
    }

    // ---- Handover in transit ------------------------------------------------------------------------

    // One identifier or two, in order.
    static function InOrder(x: Id, y: Id): (ids: seq<Id>)
      ensures forall id :: id in ids <==> id == x || id == y
      ensures forall i, j :: 0 <= i < j < |ids| ==> ids[i] < ids[j]
    {
      if x == y then [x] else if x < y then [x, y] else [y, x]
    }

    static method LockRows<T>(table: map<Id, T>, ids: seq<Id>) returns (found: bool, rows: map<Id, T>)
      ensures found <==> forall id :: id in ids ==> id in table
      ensures found ==> forall id :: id in ids ==> id in rows && rows[id] == table[id]
    {
      rows := map[];
      for i := 0 to |ids|
        invariant forall j :: 0 <= j < i ==> ids[j] in table && ids[j] in rows && rows[ids[j]] == table[ids[j]]
      {
        if ids[i] !in table { return false, rows; }
        rows := rows[ids[i] := table[ids[i]]];
      }
      return true, rows;
    }

    // lockHandoverFleet: every driver before every vehicle, each kind in order of identifier.
    static method LockHandoverFleet(fleet: Registry, leaving: Assignment, driver: Id, vehicle: Id)
      returns (found: bool, drivers: map<Id, DriverRow>, vehicles: map<Id, VehicleRow>)
      ensures found <==> leaving.driver in fleet.drivers && driver in fleet.drivers
                         && leaving.vehicle in fleet.vehicles && vehicle in fleet.vehicles
      ensures found ==> leaving.driver in drivers && drivers[leaving.driver] == fleet.drivers[leaving.driver]
      ensures found ==> driver in drivers && drivers[driver] == fleet.drivers[driver]
      ensures found ==> vehicle in vehicles && vehicles[vehicle] == fleet.vehicles[vehicle]
    {
      vehicles := map[];
      found, drivers := LockRows(fleet.drivers, InOrder(leaving.driver, driver));
      if found { found, vehicles := LockRows(fleet.vehicles, InOrder(leaving.vehicle, vehicle)); }
    }

    method CarryingRow(o: Id) returns (carrier: Option<Id>)
      requires Valid() && o in db.orders
      ensures carrier == Carrier(TripOf(db, o))
      ensures carrier.Some? ==> carrier.value in db.assignments && db.assignments[carrier.value].order == o
                                && carrier.value in TripOf(db, o).assignments
                                && TripOf(db, o).assignments[carrier.value] == db.assignments[carrier.value]
    {
      hide Constrained;
      if a :| a in db.assignments && db.assignments[a].order == o && db.assignments[a].status == Active {
        CarrierIs(db, o, a);
        carrier := Some(a);
      } else {
        NoCarrier(db, o);
        carrier := None;
      }
    }

    method CreateTripHandover(who: Actor, o: Id, request: HandoverRequest, id: Id, now: Time, fleet: Registry)
      returns (reply: Option<Error>)
      requires Valid()
      modifies this`db
      ensures Outcome(db, reply) ==
        if who.role != Manager && who.role != Admin then Outcome(old(db), Some(Forbidden))
        else if !request.texts then Outcome(old(db), Some(InvalidOrderInput))
        else if request.plannedTo <= now then Outcome(old(db), Some(InvalidTimeWindow))
        else if o !in old(db).orders then Outcome(old(db), Some(NotFound))
        else Settle(old(db), Invite(TripOf(old(db), o), who, now, request, fleet, id, id in old(db).handovers))
    {
      hide Save, TripOf, Constrained, Carrier, Objection, LapseInvitations, Lapsed;
      if who.role != Manager && who.role != Admin { return Some(Forbidden); }
      if !request.texts { return Some(InvalidOrderInput); }
      if request.plannedTo <= now { return Some(InvalidTimeWindow); }
      if o !in db.orders { return Some(NotFound); }
      ReadOrder(db, o);
      var order := db.orders[o];
      if who.role != Admin && !Runs(who, order.origin) { return Some(Forbidden); }
      if order.status != InTransit { return Some(InvalidOrderTransition); }
      var carrier := CarryingRow(o);
      if carrier.None? { return Some(NotFound); }
      var leaving := db.assignments[carrier.value];
      if leaving.driver == request.driver && leaving.vehicle == request.vehicle { return Some(InvalidOrderInput); }
      var found, drivers, vehicles := LockHandoverFleet(fleet, leaving, request.driver, request.vehicle);
      if !found { return Some(NotFound); }
      var objection := ValidateAssignmentResources(order, drivers[request.driver], vehicles[request.vehicle], now, request.plannedTo);
      if objection.Some? { return objection; }
      var tx := db.(handovers := Lapsed(db.handovers, o, now));
      LapsedRead(db, o, now);
      InvitationKeys(db, o, now, id);
      if id in db.handovers || HasInvitation(tx.handovers, o) { return Some(AssignmentStale); }
      var item := Handover(o, carrier.value, None, request.driver, request.vehicle, who.user, request.plannedTo,
                           HandoverPending, now, now + OFFER_LIFETIME, None, None);
      SaveInvited(db, o, now, id, item);
      db := tx.(handovers := tx.handovers[id := item]);
      return None;
    }

    method UpdateTripHandover(who: Actor, h: Id, action: HandoverAction, id: Id, now: Time, fleet: Registry)
      returns (reply: Option<Error>)
      requires Valid()
      modifies this`db
      ensures Outcome(db, reply) ==
        if who.role == Client then Outcome(old(db), Some(Forbidden))
        else if h !in old(db).handovers then Outcome(old(db), Some(NotFound))
        else
          var o, item := old(db).handovers[h].order, old(db).handovers[h];
          Settle(old(db), Answer(TripOf(old(db), o), h, who, now, action, fleet, id,
                                 AssignmentTaken(old(db), o, id, item.driver, item.vehicle, now, item.plannedTo)))
    {
      hide Save, TripOf, Constrained, Objection, AssignmentTaken, Blocked, HasOpenAssignment;
      if who.role == Client { return Some(Forbidden); }
      if h !in db.handovers { return Some(NotFound); }
      ReadHandover(db, h);
      var item := db.handovers[h];
      var o, a := item.order, item.previous;
      var order := db.orders[o];
      ReadOrder(db, o);
      if a !in db.assignments || db.assignments[a].order != o { return Some(NotFound); }
      var leaving := db.assignments[a];
      var found, drivers, vehicles := LockHandoverFleet(fleet, leaving, item.driver, item.vehicle);
      if !found { return Some(NotFound); }
      if action == CancelHandover {
        if who.role != Admin && (who.role != Manager || !Runs(who, order.origin)) { return Some(Forbidden); }
      } else if who.role != DriverRole || (action == ConfirmRelease && drivers[leaving.driver].user != who.user)
                || (action == AcceptHandover && drivers[item.driver].user != who.user) {
        return Some(Forbidden);
      }
      if item.status != HandoverPending { return Some(AssignmentStale); }
      var tx := db;
      if action == CancelHandover {
        item := item.(status := HandoverCancelled);
        SaveHandover(db, o, h, item);
      } else {
        if now >= item.expiresAt {
          item := item.(status := HandoverExpired);
          SaveHandover(db, o, h, item);
          db := db.(handovers := db.handovers[h := item]);
          return Some(AssignmentExpired);
        }
        if order.status != InTransit || leaving.status != Active { return Some(InvalidOrderTransition); }
        if action == ConfirmRelease {
          if item.outgoingConfirmedAt.Some? { return Some(AssignmentStale); }
          item := item.(outgoingConfirmedAt := Some(now));
          SaveHandover(db, o, h, item);
        } else if action == AcceptHandover {
          if item.outgoingConfirmedAt.None? { return Some(AssignmentStale); }
          if item.plannedTo <= now { return Some(InvalidTimeWindow); }
          var objection := ValidateAssignmentResources(order, drivers[item.driver], vehicles[item.vehicle], now, item.plannedTo);
          if objection.Some? { return objection; }
          leaving := ReleasedRow(leaving, InTransitHandover, now);
          tx := tx.(assignments := tx.assignments[a := leaving]);
          var next := NextLeg(o, item, now);
          var taken := AssignmentTaken(db, o, id, item.driver, item.vehicle, now, item.plannedTo);
          TakenId(db, o, id, item.driver, item.vehicle, now, item.plannedTo);
          SaveTakeOver(db, o, h, a, now, id, next, item.driver,
                       item.(status := HandoverCompleted, completedAt := Some(now), next := Some(id)), taken);
          if taken || HasOpenAssignment(tx.assignments, o) { return Some(ResourceAlreadyReserved); }
          order := order.(driver := Some(item.driver));
          tx := tx.(orders := tx.orders[o := order], assignments := tx.assignments[id := next], queue := Queued(tx.queue, a, leaving));
          item := item.(status := HandoverCompleted, completedAt := Some(now), next := Some(id));
        } else {
          return Some(InvalidOrderInput);
        }
      }
      db := tx.(handovers := tx.handovers[h := item]);
      return None;
    }

    // ---- Every command keeps the invariant ----------------------------------------------------------

    method HandleOrderCommand(e: Event) returns (reply: Option<Error>)
      requires Valid() && (e.command.CreateOrder? || AboutOrder(e.command))
      modifies this`db
      ensures Outcome(db, reply) == Execute(old(db), e)
    {
      hide Settle, TripOf, EditDraft, SetDetails, Submit, Cancel, Offer, AssignmentTaken, Constrained, DraftObjection, NewDraft, PartyObjection;
      match e.command {
        case CreateOrder(who, id, draft, plan) => reply := CreateOrder(who, id, draft, plan, e.fleet);
        case UpdateDraftOrder(who, o, change, route) => reply := UpdateDraftOrder(who, o, change, route);
        case SetTransportDetails(who, o, packages, texts, parties) =>
          reply := SetTransportDetails(who, o, packages, texts, parties, e.fleet);
        case SubmitOrder(who, o, route) => reply := SubmitOrder(who, o, route, e.now);
        case CancelOrder(who, o, reason) => reply := CancelOrder(who, o, reason, e.now, e.fleet);
        case CreateAssignment(who, o, offer, stored, id) => reply := CreateAssignment(who, o, offer, stored, id, e.now, e.fleet);
      }
    }

    method HandleAssignmentCommand(e: Event) returns (reply: Option<Error>)
      requires Valid() && AboutAssignment(e.command)
      modifies this`db
      ensures Outcome(db, reply) == Execute(old(db), e)
    {
      hide Settle, TripOf, Accept, Reject, Expire, Start, Arrive, Complete, Constrained, OrderOfAssignment;
      Targets(db);
      match e.command {
        case AcceptAssignment(who, a) => reply := AcceptAssignment(who, a, e.now, e.fleet);
        case RejectAssignment(who, a) => reply := RejectAssignment(who, a, e.now, e.fleet);
        case ExpireAssignment(a) => reply := ExpireAssignment(a, e.now, e.fleet);
        case StartAssignment(who, a) => reply := StartAssignment(who, a, e.now, e.fleet);
        case ArriveAssignment(who, a) => reply := ArriveAssignment(who, a, e.now, e.fleet);
        case CompleteAssignment(who, a, request) => reply := CompleteAssignment(who, a, request, e.now, e.fleet);
      }
    }

    method HandleRecordCommand(e: Event) returns (reply: Option<Error>)
      requires Valid() && !e.command.CreateOrder? && !AboutOrder(e.command) && !AboutAssignment(e.command) && !e.command.FinishRelease?
      modifies this`db
      ensures Outcome(db, reply) == Execute(old(db), e)
    {
      hide Settle, TripOf, Operate, Report, Resolve, Acknowledge, Invite, Answer, Constrained, AssignmentTaken, OperationTaken;
      Targets(db);
      match e.command {
        case CreateWarehouseOperation(who, o, request, id, incident) =>
          reply := CreateWarehouseOperation(who, o, request, id, incident, e.now, e.fleet);
        case CreateOrderIncident(who, o, request, id) => reply := CreateOrderIncident(who, o, request, id, e.now, e.fleet);
        case ResolveOrderIncident(who, i, request) => reply := ResolveOrderIncident(who, i, request, e.now);
        case CreateDeliveryReceipt(who, o, request, incident) =>
          reply := CreateDeliveryReceipt(who, o, request, incident, e.now, e.fleet);
        case CreateTripHandover(who, o, request, id) => reply := CreateTripHandover(who, o, request, id, e.now, e.fleet);
        case UpdateTripHandover(who, h, action, id) =>
          if h in db.handovers { ReadHandover(db, h); }
          reply := UpdateTripHandover(who, h, action, id, e.now, e.fleet);
      }
    }

    // Each command moves the service by one step of the model, and so keeps what every run keeps.
    method Handle(e: Event) returns (reply: Option<Error>)
      requires Inv(Here()) && Enabled(Here(), e) && !e.command.FinishRelease?
      modifies this
      ensures Here() == Step(old(Here()), e) && Inv(Here()) && clock == e.now
      ensures reply == Execute(old(db), e).reply
    {
      hide Inv, Execute, Constrained;
      InvariantConstrains(Here());
      StepKeeps(Here(), e);
      if e.command.CreateOrder? || AboutOrder(e.command) { reply := HandleOrderCommand(e); }
      else if AboutAssignment(e.command) { reply := HandleAssignmentCommand(e); }
      else { reply := HandleRecordCommand(e); }
      clock := e.now;
    }

    // expireAssignments: one transaction per offer, up to the first that fails.
    method ExpireAssignments(stale: seq<Id>, now: Time, fleet: Registry) returns (reply: Option<Error>, ghost tried: nat)
      requires Inv(Here()) && clock <= now
      modifies this
      ensures tried <= |stale| && (reply.None? ==> tried == |stale|)
      ensures Legal(old(Here()), Expiries(stale[..tried], now, fleet)) && Here() == Run(old(Here()), Expiries(stale[..tried], now, fleet))
      ensures Inv(Here())
    {
      hide Inv, Execute;
      reply, tried := None, 0;
      ghost var start := Here();
      for i := 0 to |stale|
        invariant tried == i && clock <= now && Inv(Here())
        invariant Legal(start, Expiries(stale[..i], now, fleet)) && Here() == Run(start, Expiries(stale[..i], now, fleet))
      {
        ghost var e := Event(now, fleet, Command.ExpireAssignment(stale[i]));
        RunOneMore(start, Expiries(stale[..i], now, fleet), e);
        OneMoreExpiry(stale, i, now, fleet);
        hide Run, Legal, Expiries;
        reply := Handle(Event(now, fleet, Command.ExpireAssignment(stale[i])));
        tried := i + 1;
        if reply.Some? { return; }
      }
      assert stale[..|stale|] == stale;
    }
  }

  function Expiries(stale: seq<Id>, now: Time, fleet: Registry): seq<Event> {
    seq(|stale|, i requires 0 <= i < |stale| => Event(now, fleet, Command.ExpireAssignment(stale[i])))
  }

  lemma OneMoreExpiry(stale: seq<Id>, i: nat, now: Time, fleet: Registry)
    requires i < |stale|
    ensures Expiries(stale[..i + 1], now, fleet)
            == Expiries(stale[..i], now, fleet) + [Event(now, fleet, Command.ExpireAssignment(stale[i]))]
  {
  }

  lemma {:induction false} RunOneMore(s: State, events: seq<Event>, e: Event)
    requires Legal(s, events) && Enabled(Run(s, events), e)
    ensures Legal(s, events + [e]) && Run(s, events + [e]) == Step(Run(s, events), e)
    decreases |events|
  {
    hide Enabled, Step;
    if events == [] {
      assert [e][1..] == [];
    } else {
      RunOneMore(Step(s, events[0]), events[1..], e);
      assert (events + [e])[1..] == events[1..] + [e];
    }
  }
}
