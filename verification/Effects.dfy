// What no command does to an order: each is looked at once, and a step is the command's verdict on
// the order it names.
module Effects {
  import opened Model
  import opened Eligibility
  import opened Trips
  import opened Soundness
  import opened Frames
  import opened Verdicts
  import opened Database
  import opened Core
  import opened CoreSafety
  import opened Guarantees
  import opened RowWrites

  // ---- Command by command ----------------------------------------------------------------------

  // What the command adds to the log names no resubmission, and it leaves a ready order as designed.
  ghost predicate Quiet(t: Trip, v: Verdict) {
    v.Commit? ==>
      && (forall k :: 0 <= k < |v.trip.history| && IsResubmission(v.trip.history[k]) ==>
            k < |t.history| && t.history[k] == v.trip.history[k])
      && (Coupled(t) && Strict(t) ==> Strict(v.trip))
  }

  // A ready order whose accepted assignment has loaded the cargo.
  ghost predicate Stranded(t: Trip, a: Id) {
    && t.order.status == Ready && Performed(t, Receive, None)
    && a in t.assignments && t.assignments[a].status == Accepted && Effective(t, a)
    && forall b :: b in t.assignments && Open(t.assignments[b]) ==> b == a
  }

  // The command leaves every stranded order stranded.
  ghost predicate Strands(t: Trip, v: Verdict) {
    v.Commit? ==> forall a :: Stranded(t, a) ==> Stranded(v.trip, a)
  }

  predicate Fit(o: Order) { Shippable(o) && o.priced && (o.addressed || o.destination.Some?) }

  // An order fit to ship stays so, and an offer that waits afterwards waited before or has time left.
  ghost predicate Spares(t: Trip, v: Verdict, now: Time) {
    v.Commit? ==>
      && (Fit(t.order) ==> Fit(v.trip.order))
      && (forall a :: a in v.trip.assignments && v.trip.assignments[a].status == Pending ==>
            v.trip.assignments[a].offerExpiresAt > now || StillWaits(t, a, v.trip.assignments[a].offerExpiresAt))
  }

  predicate StillWaits(t: Trip, a: Id, at: Time) {
    a in t.assignments && t.assignments[a].status == Pending && t.assignments[a].offerExpiresAt == at
  }

  lemma SubmitStrands(t: Trip, who: Actor, now: Time, route: Option<Route>)
    ensures Strands(t, Submit(t, who, now, route))
    ensures Spares(t, Submit(t, who, now, route), now)
  {
  }

  lemma EditDraftAfter(t: Trip, who: Actor, change: DraftChange, route: Option<Route>, now: Time)
    ensures Quiet(t, EditDraft(t, who, change, route)) && Strands(t, EditDraft(t, who, change, route))
    ensures Spares(t, EditDraft(t, who, change, route), now)
  {
  }

  lemma DetailsAfter(t: Trip, who: Actor, packages: nat, counterparties: Option<Error>, now: Time)
    ensures Quiet(t, SetDetails(t, who, packages, counterparties)) && Strands(t, SetDetails(t, who, packages, counterparties))
    ensures Spares(t, SetDetails(t, who, packages, counterparties), now)
  {
  }

  lemma CancelAfter(t: Trip, who: Actor, now: Time, reason: Option<StatusReason>, fleet: Registry)
    ensures Quiet(t, Cancel(t, who, now, reason, fleet)) && Strands(t, Cancel(t, who, now, reason, fleet))
    ensures Spares(t, Cancel(t, who, now, reason, fleet), now)
  {
    forall a | Stranded(t, a) ensures a in Cancellable(t) {}
  }

  lemma OfferAfter(t: Trip, who: Actor, now: Time, request: OfferRequest, fleet: Registry,
                   stored: Option<StoredRecommendation>, id: Id, taken: bool)
    ensures Quiet(t, Offer(t, who, now, request, fleet, stored, id, taken))
    ensures Strands(t, Offer(t, who, now, request, fleet, stored, id, taken))
    ensures Spares(t, Offer(t, who, now, request, fleet, stored, id, taken), now)
  {
    hide Objection, Recommended;
    forall a | Stranded(t, a) ensures Offer(t, who, now, request, fleet, stored, id, taken).Refuse? {
      var p := request.supersedes;
      if p.Some? && p.value in t.assignments && Open(t.assignments[p.value]) { assert p.value == a; }
    }
  }

  lemma AcceptAfter(t: Trip, a: Id, who: Actor, now: Time, fleet: Registry)
    requires a in t.assignments
    ensures Quiet(t, Accept(t, a, who, now, fleet)) && Strands(t, Accept(t, a, who, now, fleet))
    ensures Spares(t, Accept(t, a, who, now, fleet), now)
  {
    hide Objection;
  }

  lemma RejectAfter(t: Trip, a: Id, who: Actor, now: Time, fleet: Registry)
    requires a in t.assignments
    ensures Quiet(t, Reject(t, a, who, now, fleet)) && Strands(t, Reject(t, a, who, now, fleet))
    ensures Spares(t, Reject(t, a, who, now, fleet), now)
  {
  }

  lemma ExpireAfter(t: Trip, a: Id, now: Time, fleet: Registry)
    requires a in t.assignments
    ensures Quiet(t, Expire(t, a, now, fleet)) && Strands(t, Expire(t, a, now, fleet))
    ensures Spares(t, Expire(t, a, now, fleet), now)
  {
  }

  lemma StartAfter(t: Trip, a: Id, who: Actor, now: Time, fleet: Registry)
    requires a in t.assignments
    ensures Quiet(t, Start(t, a, who, now, fleet)) && Strands(t, Start(t, a, who, now, fleet))
    ensures Spares(t, Start(t, a, who, now, fleet), now)
  {
  }

  lemma ArriveAfter(t: Trip, a: Id, who: Actor, now: Time, fleet: Registry)
    requires a in t.assignments
    ensures Quiet(t, Arrive(t, a, who, now, fleet)) && Strands(t, Arrive(t, a, who, now, fleet))
    ensures Spares(t, Arrive(t, a, who, now, fleet), now)
  {
  }

  lemma CompleteAfter(t: Trip, a: Id, who: Actor, now: Time, request: CompleteRequest, fleet: Registry)
    requires a in t.assignments
    ensures Quiet(t, Complete(t, a, who, now, request, fleet)) && Strands(t, Complete(t, a, who, now, request, fleet))
    ensures Spares(t, Complete(t, a, who, now, request, fleet), now)
  {
  }

  lemma OperateAfter(t: Trip, who: Actor, now: Time, request: OperationRequest, fleet: Registry,
                     elsewhere: bool, id: Id, taken: bool, incident: Id, spent: bool)
    requires request.packages >= 0
    ensures Quiet(t, Operate(t, who, now, request, fleet, elsewhere, id, taken, incident, spent))
    ensures Strands(t, Operate(t, who, now, request, fleet, elsewhere, id, taken, incident, spent))
    ensures Spares(t, Operate(t, who, now, request, fleet, elsewhere, id, taken, incident, spent), now)
  {
    hide ExpectedIn, SiteObjection;
  }

  lemma ReportAfter(t: Trip, who: Actor, now: Time, request: IncidentRequest, fleet: Registry, id: Id, taken: bool)
    requires NonNegative(request.expected) && NonNegative(request.actual)
    ensures Quiet(t, Report(t, who, now, request, fleet, id, taken)) && Strands(t, Report(t, who, now, request, fleet, id, taken))
    ensures Spares(t, Report(t, who, now, request, fleet, id, taken), now)
  {
    hide Server;
  }

  lemma ResolveAfter(t: Trip, id: Id, who: Actor, now: Time, request: ResolveRequest)
    requires id in t.incidents
    ensures Quiet(t, Resolve(t, id, who, now, request)) && Strands(t, Resolve(t, id, who, now, request))
    ensures Spares(t, Resolve(t, id, who, now, request), now)
  {
    hide Settles;
  }

  lemma AcknowledgeAfter(t: Trip, who: Actor, now: Time, request: ReceiptRequest, fleet: Registry,
                         elsewhere: bool, incident: Id, spent: bool)
    requires request.packages >= 0
    ensures Quiet(t, Acknowledge(t, who, now, request, fleet, elsewhere, incident, spent))
    ensures Strands(t, Acknowledge(t, who, now, request, fleet, elsewhere, incident, spent))
    ensures Spares(t, Acknowledge(t, who, now, request, fleet, elsewhere, incident, spent), now)
  {
    hide ExpectedAtReceipt;
  }

  lemma InviteAfter(t: Trip, who: Actor, now: Time, request: HandoverRequest, fleet: Registry, id: Id, taken: bool)
    ensures Quiet(t, Invite(t, who, now, request, fleet, id, taken)) && Strands(t, Invite(t, who, now, request, fleet, id, taken))
    ensures Spares(t, Invite(t, who, now, request, fleet, id, taken), now)
  {
    hide Objection, Carrier;
  }

  lemma AnswerAfter(t: Trip, h: Id, who: Actor, now: Time, action: HandoverAction, fleet: Registry, id: Id, taken: bool)
    requires h in t.handovers
    ensures Quiet(t, Answer(t, h, who, now, action, fleet, id, taken))
    ensures Strands(t, Answer(t, h, who, now, action, fleet, id, taken))
    ensures Spares(t, Answer(t, h, who, now, action, fleet, id, taken), now)
  {
    hide Objection;
  }

  lemma OrderCommandsAfter(db: Tables, o: Id, e: Event, v: Verdict)
    requires o in db.orders && Target(db, e.command) == Some(o) && Precheck(e.command, e.now).None?
    requires v == Decide(db, o, e) && AboutOrder(e.command)
    ensures Strands(TripOf(db, o), v) && Spares(TripOf(db, o), v, e.now) && (e.command.SubmitOrder? || Quiet(TripOf(db, o), v))
  {
    hide Quiet, Strands, Spares, EditDraft, SetDetails, Submit, Cancel, Offer, AssignmentTaken;
    var t, now, fleet := TripOf(db, o), e.now, e.fleet;
    match e.command {
      case UpdateDraftOrder(who, _, change, route) => EditDraftAfter(t, who, change, route, now);
      case SetTransportDetails(who, _, packages, _, parties) =>
        DetailsAfter(t, who, packages, PartyObjection(who, t.order.createdBy, parties, fleet), now);
      case SubmitOrder(who, _, route) => SubmitStrands(t, who, now, route);
      case CancelOrder(who, _, reason) =>
        CancelAfter(t, who, now, if reason.Some? then Some(Code(reason.value)) else None, fleet);
      case CreateAssignment(who, _, offer, stored, id) =>
        OfferAfter(t, who, now, offer, fleet, stored, id,
                   AssignmentTaken(db, o, id, offer.driver, offer.vehicle, offer.plannedFrom, offer.plannedTo));
    }
  }

  lemma AssignmentCommandsAfter(db: Tables, o: Id, e: Event, v: Verdict)
    requires o in db.orders && Target(db, e.command) == Some(o) && Precheck(e.command, e.now).None?
    requires v == Decide(db, o, e) && AboutAssignment(e.command)
    ensures Strands(TripOf(db, o), v) && Spares(TripOf(db, o), v, e.now) && Quiet(TripOf(db, o), v)
  {
    hide Quiet, Strands, Spares, Accept, Reject, Expire, Start, Arrive, Complete;
    var t, now, fleet := TripOf(db, o), e.now, e.fleet;
    match e.command {
      case AcceptAssignment(who, a) => AcceptAfter(t, a, who, now, fleet);
      case RejectAssignment(who, a) => RejectAfter(t, a, who, now, fleet);
      case ExpireAssignment(a) => ExpireAfter(t, a, now, fleet);
      case StartAssignment(who, a) => StartAfter(t, a, who, now, fleet);
      case ArriveAssignment(who, a) => ArriveAfter(t, a, who, now, fleet);
      case CompleteAssignment(who, a, completion) => CompleteAfter(t, a, who, now, completion, fleet);
    }
  }

  lemma RecordsAfter(db: Tables, o: Id, e: Event, v: Verdict)
    requires o in db.orders && Target(db, e.command) == Some(o) && Precheck(e.command, e.now).None?
    requires v == Decide(db, o, e) && !AboutOrder(e.command) && !AboutAssignment(e.command)
    ensures Strands(TripOf(db, o), v) && Spares(TripOf(db, o), v, e.now) && Quiet(TripOf(db, o), v)
  {
    hide Quiet, Strands, Spares, Operate, Report, Resolve, Acknowledge, Invite, Answer, AssignmentTaken, OperationTaken;
    var t, now, fleet := TripOf(db, o), e.now, e.fleet;
    match e.command {
      case CreateWarehouseOperation(who, _, op, id, incident) =>
        OperateAfter(t, who, now, op, fleet, op.assignment.Some? && op.assignment.value in db.assignments,
                     id, OperationTaken(db, id), incident, incident in db.incidents);
      case CreateOrderIncident(who, _, report, id) => ReportAfter(t, who, now, report, fleet, id, id in db.incidents);
      case ResolveOrderIncident(who, i, resolution) => ResolveAfter(t, i, who, now, resolution);
      case CreateDeliveryReceipt(who, _, receipt, incident) =>
        AcknowledgeAfter(t, who, now, receipt, fleet, receipt.assignment in db.assignments, incident, incident in db.incidents);
      case CreateTripHandover(who, _, invitation, id) => InviteAfter(t, who, now, invitation, fleet, id, id in db.handovers);
      case UpdateTripHandover(who, h, action, id) =>
        AnswerAfter(t, h, who, now, action, fleet, id,
                    AssignmentTaken(db, o, id, t.handovers[h].driver, t.handovers[h].vehicle, now, t.handovers[h].plannedTo));
    }
  }

  lemma CommandsAfter(db: Tables, o: Id, e: Event, v: Verdict)
    requires o in db.orders && Target(db, e.command) == Some(o) && Precheck(e.command, e.now).None?
    requires v == Decide(db, o, e)
    ensures Strands(TripOf(db, o), v) && Spares(TripOf(db, o), v, e.now) && (e.command.SubmitOrder? || Quiet(TripOf(db, o), v))
  {
    hide Quiet, Strands, Spares, Decide, Target, Precheck;
    if AboutOrder(e.command) { OrderCommandsAfter(db, o, e, v); }
    else if AboutAssignment(e.command) { AssignmentCommandsAfter(db, o, e, v); }
    else { RecordsAfter(db, o, e, v); }
  }

  // ---- Steps --------------------------------------------------------------------------------------

  // What a step does to the trip of an order that existed before it.
  lemma StepVerdict(s: State, e: Event, p: Id) returns (v: Verdict)
    requires Inv(s) && Enabled(s, e) && p in s.db.orders
    ensures p in Step(s, e).db.orders
    ensures TripOf(Step(s, e).db, p) == if v.Commit? then v.trip else TripOf(s.db, p)
    ensures Strands(TripOf(s.db, p), v) && Spares(TripOf(s.db, p), v, e.now)
    ensures v.Commit? ==> Precheck(e.command, e.now).None? && Target(s.db, e.command) == Some(p) && v == Decide(s.db, p, e)
    ensures !e.command.SubmitOrder? ==> Quiet(TripOf(s.db, p), v)
  {
    hide Inv, Precheck, Target, Decide, Deciding, Evolves, Sound, Crewed, Formed, Recorded, FreshIn, NewUnbooked, Grows,
         Strands, Quiet, Spares, TripOf, Save, Enabled;
    v := Refuse(NotFound);
    StepKeepsOrders(s, e);
    if Precheck(e.command, e.now).Some? || e.command.CreateOrder? || e.command.FinishRelease? || Target(s.db, e.command).None? {
      UnsettledStays(s, e, p);
    }
    if Precheck(e.command, e.now).None? && !e.command.CreateOrder? && !e.command.FinishRelease? {
      var target := Target(s.db, e.command);
      if target.Some? {
        OtherOrdersStay(s, e, target.value, p);
        if target.value == p {
          v := Decide(s.db, p, e);
          CommandsAfter(s.db, p, e, v);
        }
      }
    }
    RefusalsAreQuiet(TripOf(s.db, p), v, e.now);
  }

  lemma RefusalsAreQuiet(t: Trip, v: Verdict, now: Time)
    ensures v.Refuse? ==> Strands(t, v) && Spares(t, v, now) && Quiet(t, v)
  {
  }

  // Steps that write no order's rows.
  lemma UnsettledStays(s: State, e: Event, p: Id)
    requires Inv(s) && Enabled(s, e) && p in s.db.orders
    requires Precheck(e.command, e.now).Some? || e.command.CreateOrder? || e.command.FinishRelease? || Target(s.db, e.command).None?
    ensures p in Step(s, e).db.orders && TripOf(Step(s, e).db, p) == TripOf(s.db, p)
  {
    hide Inv, Precheck, Target, Decide, Enabled, TripOf, NewDraft;
    UnsettledRows(s.db, e);
    SameTrip(s.db, Execute(s.db, e).db, p);
  }

  lemma UnsettledRows(db: Tables, e: Event)
    requires Precheck(e.command, e.now).Some? || e.command.CreateOrder? || e.command.FinishRelease? || Target(db, e.command).None?
    ensures var after := Execute(db, e).db;
            && after == db.(orders := after.orders, queue := after.queue)
            && forall p :: p in db.orders ==> p in after.orders && after.orders[p] == db.orders[p]
  {
    hide Execute, Precheck, Target;
    if Precheck(e.command, e.now).Some? {
      RefusedChangesNothing(db, e);
    } else if e.command.CreateOrder? {
      CreationOnlyAdds(db, e);
    } else if e.command.FinishRelease? {
      FinishingOnlyDequeues(db, e);
    } else {
      MissingChangesNothing(db, e);
    }
  }

  lemma CreationOnlyAdds(db: Tables, e: Event)
    requires e.command.CreateOrder? && Precheck(e.command, e.now).None?
    ensures var c, after := e.command, Execute(db, e).db;
            if DraftObjection(c.who, c.draft, e.fleet).None? && c.plan.None? && c.id !in db.orders
            then after == db.(orders := db.orders[c.id := NewDraft(c.id, c.who, c.draft, e.fleet)])
            else after == db
  {
    hide Precheck, Target, Decide, NewDraft, DraftObjection, Settle;
  }

  lemma FinishingOnlyDequeues(db: Tables, e: Event)
    requires e.command.FinishRelease? && Precheck(e.command, e.now).None?
    ensures Execute(db, e).db == db.(queue := db.queue - {e.command.assignment})
  {
    hide Precheck, Target, Decide, Settle;
  }

  lemma RefusedChangesNothing(db: Tables, e: Event)
    requires Precheck(e.command, e.now).Some?
    ensures Execute(db, e).db == db
  {
    hide Precheck, Target, Decide, Settle;
  }

  lemma MissingChangesNothing(db: Tables, e: Event)
    requires !e.command.CreateOrder? && !e.command.FinishRelease? && Target(db, e.command).None?
    ensures Execute(db, e).db == db
  {
    hide Precheck, Target, Decide, Settle;
  }

  lemma SameTrip(db: Tables, after: Tables, p: Id)
    requires after == db.(orders := after.orders, queue := after.queue) && p in db.orders && p in after.orders
    requires after.orders[p] == db.orders[p]
    ensures TripOf(after, p) == TripOf(db, p)
  {
  }

  lemma LoggedOrdersExist(s: State, p: Id)
    requires Inv(s) && p !in s.db.orders
    ensures p !in s.db.history && Referential(s.db)
  {
    hide AllSound, NoDoubleBooking, ReleasesKept;
  }

  lemma SettledOrders(s: State, e: Event, o: Id)
    requires Inv(s) && Enabled(s, e) && Precheck(e.command, e.now).None? && Target(s.db, e.command) == Some(o)
    ensures o in s.db.orders && Settle(s.db, Decide(s.db, o, e)).db.orders.Keys == s.db.orders.Keys
  {
    hide Inv, Sound, Crewed, Formed, Recorded, Precheck, Referential, Evolves, NewUnbooked, Decide, Target, Deciding;
    AimedSound(s, e, o);
    AimedAt(s, e, o);
    var v := Decide(s.db, o, e);
    if v.Commit? {
      DecideFits(s.db, o, e, s.clock, v);
      SameOrder(s.db, o, v.trip);
    }
  }

  // The only step that adds an order is a creation.
  lemma OrdersAreCreated(s: State, e: Event, p: Id)
    requires Inv(s) && Enabled(s, e) && p !in s.db.orders && p in Step(s, e).db.orders
    ensures e.command.CreateOrder? && DraftObjection(e.command.who, e.command.draft, e.fleet).None?
    ensures Step(s, e).db == s.db.(orders := s.db.orders[p := NewDraft(p, e.command.who, e.command.draft, e.fleet)])
  {
    hide Inv, Enabled, Precheck, Decide, Target, Settle, DraftObjection, NewDraft, Execute;
    if Precheck(e.command, e.now).Some? {
      RefusedChangesNothing(s.db, e);
    } else if e.command.CreateOrder? {
      CreationOnlyAdds(s.db, e);
    } else if e.command.FinishRelease? {
      FinishingOnlyDequeues(s.db, e);
    } else if Target(s.db, e.command).None? {
      MissingChangesNothing(s.db, e);
    } else {
      SettledOrders(s, e, Target(s.db, e.command).value);
      SettledExecution(s.db, e, Target(s.db, e.command).value);
    }
  }

  lemma SettledExecution(db: Tables, e: Event, o: Id)
    requires Precheck(e.command, e.now).None? && Target(db, e.command) == Some(o) && o in db.orders
    requires !e.command.CreateOrder? && !e.command.FinishRelease?
    ensures Execute(db, e) == Settle(db, Decide(db, o, e))
  {
    hide Precheck, Target, Decide, Settle;
  }

  // It adds a draft with no rows of its own.
  lemma NewOrders(s: State, e: Event, p: Id)
    requires Inv(s) && Enabled(s, e) && p !in s.db.orders && p in Step(s, e).db.orders
    ensures e.command.CreateOrder? && DraftObjection(e.command.who, e.command.draft, e.fleet).None?
    ensures var t := TripOf(Step(s, e).db, p);
            && t.order == NewDraft(p, e.command.who, e.command.draft, e.fleet)
            && t.assignments == map[] && t.history == []
  {
    hide Inv, Enabled, Step, DraftObjection, NewDraft;
    OrdersAreCreated(s, e, p);
    LoggedOrdersExist(s, p);
    NobodysRows(s.db, p);
  }

  // ---- No step makes an offer overdue ---------------------------------------------------------------

  predicate WaitsUntil(rows: map<Id, Assignment>, a: Id, at: Time) {
    a in rows && rows[a].status == Pending && rows[a].offerExpiresAt == at
  }

  // An offer that waits after a step with its time up by then waited before it.
  lemma StepAddsNoOverdue(s: State, e: Event, a: Id, at: Time)
    requires Inv(s) && Enabled(s, e) && WaitsUntil(Step(s, e).db.assignments, a, at) && at <= e.now
    ensures WaitsUntil(s.db.assignments, a, at)
  {
    hide Inv, Enabled, Step, Quiet, Strands, Decide, Target, Precheck, NewDraft, DraftObjection;
    StepKeeps(s, e);
    HasReferences(Step(s, e));
    var p := Step(s, e).db.assignments[a].order;
    assert a in TripOf(Step(s, e).db, p).assignments;
    if p in s.db.orders {
      var v := StepVerdict(s, e, p);
    } else {
      NewOrders(s, e, p);
    }
  }

  lemma {:induction false} RunAddsNoOverdue(s: State, events: seq<Event>, a: Id, at: Time)
    requires Inv(s) && Legal(s, events) && at <= s.clock && WaitsUntil(Run(s, events).db.assignments, a, at)
    ensures WaitsUntil(s.db.assignments, a, at)
    decreases |events|
  {
    hide Inv, Execute, WaitsUntil, Precheck;
    if events != [] {
      StepKeeps(s, events[0]);
      RunAddsNoOverdue(Step(s, events[0]), events[1..], a, at);
      StepAddsNoOverdue(s, events[0], a, at);
    }
  }

  lemma {:induction false} ClockGoesOn(s: State, events: seq<Event>)
    requires Legal(s, events)
    ensures s.clock <= Run(s, events).clock
    decreases |events|
  {
    hide Execute;
    if events != [] { ClockGoesOn(Step(s, events[0]), events[1..]); }
  }

  // ---- Every order is fit to ship -------------------------------------------------------------------

  ghost predicate AllFit(db: Tables) { forall o :: o in db.orders ==> Fit(db.orders[o]) }

  lemma DraftIsFit(id: Id, who: Actor, draft: DraftRequest, fleet: Registry)
    requires DraftObjection(who, draft, fleet).None?
    ensures Fit(NewDraft(id, who, draft, fleet))
  {
  }

  lemma StepKeepsFit(s: State, e: Event)
    requires Inv(s) && Enabled(s, e) && AllFit(s.db)
    ensures AllFit(Step(s, e).db)
  {
    hide Inv, Enabled, Step, Fit, Decide, Target, Precheck, Quiet, Strands, DraftObjection, NewDraft;
    forall p | p in Step(s, e).db.orders ensures Fit(Step(s, e).db.orders[p]) {
      if p in s.db.orders {
        var v := StepVerdict(s, e, p);
      } else {
        NewOrders(s, e, p);
        DraftIsFit(p, e.command.who, e.command.draft, e.fleet);
      }
    }
  }

  // What creation checks and editing rechecks holds of every order for good: weight and volume are
  // not negative, a window with two ends is not empty, there is a price, and a place to go to.
  lemma {:induction false} OrdersStayFit(s: State, events: seq<Event>)
    requires Inv(s) && Legal(s, events) && AllFit(s.db)
    ensures AllFit(Run(s, events).db)
    decreases |events|
  {
    hide Inv, Enabled, Step, AllFit;
    if events != [] {
      StepKeeps(s, events[0]);
      StepKeepsFit(s, events[0]);
      OrdersStayFit(Step(s, events[0]), events[1..]);
    }
  }
}
