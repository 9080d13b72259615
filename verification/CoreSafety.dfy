// Every step keeps the invariant, so every run does.
module CoreSafety {
  import opened Model
  import opened Eligibility
  import opened Trips
  import opened Soundness
  import opened Frames
  import opened Verdicts
  import opened Database
  import opened Core

  // ---- One order's verdict, seen from the whole database ------------------------------------

  // Nothing of another order reserves what this row reserves.
  ghost predicate Unbooked(db: Tables, o: Id, row: Assignment) {
    forall b :: b in db.assignments && db.assignments[b].order != o ==>
      !Reserves(db.assignments[b], row.driver, row.vehicle, row.plannedFrom, row.plannedTo)
  }

  ghost predicate NewUnbooked(db: Tables, t: Trip, u: Trip) {
    forall a :: a in u.assignments && a !in t.assignments ==> Unbooked(db, t.order.id, u.assignments[a])
  }

  ghost predicate Fits(db: Tables, t: Trip, v: Verdict, now: Time) {
    v.Commit? && Sound(v.trip, now) && Evolves(t, v.trip, v.closed) && FreshIn(db, t, v.trip) && NewUnbooked(db, t, v.trip)
  }

  lemma SoundRowsOwned(t: Trip, clock: Time)
    requires Sound(t, clock)
    ensures Owned(t)
  {
    hide Crewed, Recorded, Owned, Stamped, Proven, StartedBy, OneInvitation;
  }

  lemma SettledFits(db: Tables, t: Trip, v: Verdict, now: Time, assignment: set<Id>, incident: set<Id>, handover: set<Id>)
    requires Settled(t, v, now, assignment, incident, handover)
    requires assignment !! db.assignments.Keys && incident !! db.incidents.Keys && handover !! db.handovers.Keys
    requires forall a :: a in assignment && a in v.trip.assignments ==> Unbooked(db, t.order.id, v.trip.assignments[a])
    ensures Fits(db, t, v, now)
  {
    hide Sound, Crewed, Formed, Recorded, Unbooked;
    SoundRowsOwned(v.trip, now);
  }

  lemma FreeIsUnbooked(db: Tables, o: Id, id: Id, row: Assignment)
    requires !AssignmentTaken(db, o, id, row.driver, row.vehicle, row.plannedFrom, row.plannedTo)
    ensures id !in db.assignments && Unbooked(db, o, row)
  {
  }

  lemma OfferFits(db: Tables, t: Trip, who: Actor, now: Time, offer: OfferRequest, fleet: Registry,
                  stored: Option<StoredRecommendation>, id: Id, taken: bool, clock: Time)
    requires Sound(t, clock) && clock <= now
    requires taken == AssignmentTaken(db, t.order.id, id, offer.driver, offer.vehicle, offer.plannedFrom, offer.plannedTo)
    requires Offer(t, who, now, offer, fleet, stored, id, taken).Commit?
    ensures Fits(db, t, Offer(t, who, now, offer, fleet, stored, id, taken), now)
  {
    hide Sound, Crewed, Formed, Recorded, Offer, Evolves, Adds, Settled, Fits, Preservation.Withdraws, Preservation.Offers, Unbooked,
         AssignmentTaken, Withdraw;
    var v := Offer(t, who, now, offer, fleet, stored, id, taken);
    OfferSettles(t, who, now, offer, fleet, stored, id, taken, clock);
    var freed := OfferEffect(t, who, now, offer, fleet, stored, id, taken);
    FreeIsUnbooked(db, t.order.id, id, OfferRow(t.order.id, who, now, offer));
    assert v.trip.assignments[id] == OfferRow(t.order.id, who, now, offer);
    SettledFits(db, t, v, now, {id}, {}, {});
  }

  lemma AnswerFits(db: Tables, t: Trip, h: Id, who: Actor, now: Time, action: HandoverAction, fleet: Registry,
                   id: Id, taken: bool, clock: Time)
    requires Sound(t, clock) && clock < now && h in t.handovers && t.assignments.Keys <= db.assignments.Keys
    requires taken == AssignmentTaken(db, t.order.id, id, t.handovers[h].driver, t.handovers[h].vehicle, now, t.handovers[h].plannedTo)
    requires Answer(t, h, who, now, action, fleet, id, taken).Commit?
    ensures Fits(db, t, Answer(t, h, who, now, action, fleet, id, taken), now)
  {
    hide Sound, Crewed, Formed, Recorded, Answer, Evolves, Adds, Settled, Fits, Unbooked, AssignmentTaken;
    var v := Answer(t, h, who, now, action, fleet, id, taken);
    AnswerSettles(t, h, who, now, action, fleet, id, taken, clock);
    AnswerInserts(t, h, who, now, action, fleet, id, taken, clock);
    if !taken { FreeIsUnbooked(db, t.order.id, id, NextLeg(t.order.id, t.handovers[h], now)); }
    SettledFits(db, t, v, now, if taken then {} else {id}, {}, {});
  }

  // The only leg an answer inserts is the one the invitation described.
  lemma AnswerInserts(t: Trip, h: Id, who: Actor, now: Time, action: HandoverAction, fleet: Registry,
                      id: Id, taken: bool, clock: Time)
    requires Sound(t, clock) && clock < now && h in t.handovers && Answer(t, h, who, now, action, fleet, id, taken).Commit?
    ensures var u := Answer(t, h, who, now, action, fleet, id, taken).trip;
            id in u.assignments ==> id in t.assignments || u.assignments[id] == NextLeg(t.order.id, t.handovers[h], now)
  {
    hide Sound, Crewed, Formed, Recorded, Owned, OneInvitation;
    WellKept(t, clock);
    AnswerEffect(t, h, who, now, action, fleet, id, taken);
    hide Answer;
  }

  // Decide on the order the command is aimed at, in a sound database.
  ghost predicate Deciding(db: Tables, o: Id, e: Event, clock: Time) {
    && o in db.orders && db.orders[o].id == o && Sound(TripOf(db, o), clock)
    && (if e.command.ExpireAssignment? then clock <= e.now else clock < e.now)
    && Precheck(e.command, e.now).None? && Target(db, e.command) == Some(o)
  }

  predicate AboutOrder(c: Command) {
    c.UpdateDraftOrder? || c.SetTransportDetails? || c.SubmitOrder? || c.CancelOrder? || c.CreateAssignment?
  }

  predicate AboutAssignment(c: Command) {
    c.AcceptAssignment? || c.RejectAssignment? || c.ExpireAssignment? || c.StartAssignment? || c.ArriveAssignment?
    || c.CompleteAssignment?
  }

  lemma DecideOrderFits(db: Tables, o: Id, e: Event, clock: Time, v: Verdict)
    requires Deciding(db, o, e, clock) && AboutOrder(e.command) && v == Decide(db, o, e) && v.Commit?
    ensures Fits(db, TripOf(db, o), v, e.now)
  {
    hide Sound, Crewed, Formed, Recorded, Settled, Fits, EditDraft, SetDetails, Submit, Cancel, Offer, AssignmentTaken;
    var t, now, fleet := TripOf(db, o), e.now, e.fleet;
    match e.command {
      case UpdateDraftOrder(who, _, change, route) => EditDraftSettles(t, who, change, route, clock, now);
        SettledFits(db, t, v, now, {}, {}, {});
      case SetTransportDetails(who, _, packages, _, parties) =>
        DetailsSettle(t, who, packages, PartyObjection(who, t.order.createdBy, parties, fleet), clock, now);
        SettledFits(db, t, v, now, {}, {}, {});
      case SubmitOrder(who, _, route) => SubmitSettles(t, who, now, route, clock);
        SettledFits(db, t, v, now, {}, {}, {});
      case CancelOrder(who, _, reason) =>
        CancelSettles(t, who, now, if reason.Some? then Some(Code(reason.value)) else None, fleet, clock);
        SettledFits(db, t, v, now, {}, {}, {});
      case CreateAssignment(who, _, offer, stored, id) =>
        OfferFits(db, t, who, now, offer, fleet, stored, id,
                  AssignmentTaken(db, o, id, offer.driver, offer.vehicle, offer.plannedFrom, offer.plannedTo), clock);
    }
  }

  lemma DecideAssignmentFits(db: Tables, o: Id, e: Event, clock: Time, v: Verdict)
    requires Deciding(db, o, e, clock) && AboutAssignment(e.command) && v == Decide(db, o, e) && v.Commit?
    ensures Fits(db, TripOf(db, o), v, e.now)
  {
    hide Sound, Crewed, Formed, Recorded, Settled, Fits, Accept, Reject, Expire, Start, Arrive, Complete;
    var t, now, fleet := TripOf(db, o), e.now, e.fleet;
    match e.command {
      case AcceptAssignment(who, a) => AcceptSettles(t, a, who, now, fleet, clock);
      case RejectAssignment(who, a) => RejectSettles(t, a, who, now, fleet, clock);
      case ExpireAssignment(a) => ExpireSettles(t, a, now, fleet, clock);
      case StartAssignment(who, a) => StartSettles(t, a, who, now, fleet, clock);
      case ArriveAssignment(who, a) => ArriveSettles(t, a, who, now, fleet, clock);
      case CompleteAssignment(who, a, completion) => CompleteSettles(t, a, who, now, completion, fleet, clock);
    }
    SettledFits(db, t, v, now, {}, {}, {});
  }

  lemma DecideRecordFits(db: Tables, o: Id, e: Event, clock: Time, v: Verdict)
    requires Deciding(db, o, e, clock) && !AboutOrder(e.command) && !AboutAssignment(e.command) && v == Decide(db, o, e) && v.Commit?
    ensures Fits(db, TripOf(db, o), v, e.now)
  {
    hide Sound, Crewed, Formed, Recorded, Settled, Fits, Operate, Report, Resolve, Acknowledge, Invite, Answer, AssignmentTaken,
         OperationTaken;
    var t, now, fleet := TripOf(db, o), e.now, e.fleet;
    match e.command {
      case CreateWarehouseOperation(who, _, op, id, incident) =>
        OperationFits(db, t, who, now, op, fleet, id, incident, clock, o);
      case CreateOrderIncident(who, _, report, id) => ReportSettles(t, who, now, report, fleet, id, id in db.incidents, clock);
        SettledFits(db, t, v, now, {}, {id}, {});
      case ResolveOrderIncident(who, i, resolution) => ResolveSettles(t, i, who, now, resolution, clock);
        SettledFits(db, t, v, now, {}, {}, {});
      case CreateDeliveryReceipt(who, _, receipt, incident) =>
        var spent := incident in db.incidents;
        AcknowledgeSettles(t, who, now, receipt, fleet, receipt.assignment in db.assignments, incident, spent, clock);
        SettledFits(db, t, v, now, {}, if spent then {} else {incident}, {});
      case CreateTripHandover(who, _, invitation, id) => InviteSettles(t, who, now, invitation, fleet, id, id in db.handovers, clock);
        SettledFits(db, t, v, now, {}, {}, {id});
      case UpdateTripHandover(who, h, action, id) =>
        AnswerFits(db, t, h, who, now, action, fleet, id,
                   AssignmentTaken(db, o, id, t.handovers[h].driver, t.handovers[h].vehicle, now, t.handovers[h].plannedTo), clock);
    }
  }

  lemma DecideFits(db: Tables, o: Id, e: Event, clock: Time, v: Verdict)
    requires Deciding(db, o, e, clock) && v == Decide(db, o, e) && v.Commit?
    ensures Fits(db, TripOf(db, o), v, e.now)
  {
    hide Deciding, Fits, Decide;
    if AboutOrder(e.command) { DecideOrderFits(db, o, e, clock, v); }
    else if AboutAssignment(e.command) { DecideAssignmentFits(db, o, e, clock, v); }
    else { DecideRecordFits(db, o, e, clock, v); }
  }

  lemma OperateUntaken(t: Trip, who: Actor, now: Time, op: OperationRequest, fleet: Registry,
                       elsewhere: bool, id: Id, taken: bool, incident: Id, spent: bool)
    requires op.packages >= 0 && Operate(t, who, now, op, fleet, elsewhere, id, taken, incident, spent).Commit?
    ensures !taken
  {
    hide OperationObjection, ExpectedIn;
  }

  lemma OperationFits(db: Tables, t: Trip, who: Actor, now: Time, op: OperationRequest, fleet: Registry,
                      id: Id, incident: Id, clock: Time, o: Id)
    requires o in db.orders && t == TripOf(db, o) && Sound(t, clock) && clock <= now && op.packages >= 0
    requires Operate(t, who, now, op, fleet, op.assignment.Some? && op.assignment.value in db.assignments,
                     id, OperationTaken(db, id), incident, incident in db.incidents).Commit?
    ensures Fits(db, t, Operate(t, who, now, op, fleet, op.assignment.Some? && op.assignment.value in db.assignments,
                     id, OperationTaken(db, id), incident, incident in db.incidents), now)
  {
    hide Sound, Crewed, Formed, Recorded, Evolves, Adds, Operate;
    var elsewhere, taken, spent := op.assignment.Some? && op.assignment.value in db.assignments, OperationTaken(db, id), incident in db.incidents;
    OperateUntaken(t, who, now, op, fleet, elsewhere, id, taken, incident, spent);
    OperateSettles(t, who, now, op, fleet, elsewhere, id, taken, incident, spent, clock);
    SettledFits(db, t, Operate(t, who, now, op, fleet, elsewhere, id, taken, incident, spent), now, {}, if spent then {} else {incident}, {});
  }

  // ---- Saving a verdict that fits ---------------------------------------------------------------

  lemma SaveKeepsBookings(db: Tables, t: Trip, u: Trip, closed: set<Id>)
    requires NoDoubleBooking(db.assignments) && t.order.id in db.orders && t == TripOf(db, t.order.id)
    requires Evolves(t, u, closed) && FreshIn(db, t, u) && NewUnbooked(db, t, u) && OneOpen(u)
    ensures NoDoubleBooking(db.assignments + u.assignments)
  {
    var after := db.assignments + u.assignments;
    forall a, b | a in after && b in after && a != b && Open(after[a])
      ensures !Reserves(after[b], after[a].driver, after[a].vehicle, after[a].plannedFrom, after[a].plannedTo)
    {
      if a in u.assignments && b in u.assignments {
      } else if a in u.assignments {
        assert a in t.assignments || Unbooked(db, t.order.id, u.assignments[a]);
        assert b in db.assignments && db.assignments[b].order != t.order.id;
      } else if b in u.assignments {
        assert b in t.assignments || Unbooked(db, t.order.id, u.assignments[b]);
        assert a in db.assignments && db.assignments[a].order != t.order.id;
      }
    }
  }

  lemma SaveKeepsReleases(db: Tables, t: Trip, u: Trip, closed: set<Id>, done: set<Id>)
    requires ReleasesKept(db, done) && t.order.id in db.orders && t == TripOf(db, t.order.id)
    requires Evolves(t, u, closed) && FreshIn(db, t, u)
    ensures ReleasesKept(Save(db, u, closed), done)
  {
    var after := Save(db, u, closed);
    forall a | a in closed ensures a in u.assignments && a !in db.queue && a !in done && !Open(u.assignments[a]) {
      assert a in t.assignments && a in db.assignments;
    }
    forall a ensures (a in after.assignments && !Open(after.assignments[a])) == (a in after.queue || a in done) {
      if a in u.assignments && a in t.assignments { assert a in db.assignments && db.assignments[a] == t.assignments[a]; }
    }
    forall a | a in after.queue && a in after.assignments ensures after.queue[a] == JobOf(after.assignments[a]) {
      if a in u.assignments && a in t.assignments { assert db.assignments[a] == t.assignments[a]; }
    }
  }

  lemma OneOpenOf(t: Trip, clock: Time)
    requires Sound(t, clock)
    ensures OneOpen(t)
  {
    hide Formed, Recorded, OneOpen, Strict, Resubmitted, Held;
  }

  lemma SaveKeepsSound(db: Tables, u: Trip, closed: set<Id>, clock: Time, now: Time)
    requires Referential(db) && u.order.id in db.orders && FreshIn(db, TripOf(db, u.order.id), u)
    requires AllSound(db, clock) && Sound(u, now) && clock <= now
    ensures AllSound(Save(db, u, closed), now)
  {
    hide Sound, Crewed, Formed, Recorded, Referential, FreshIn;
    var after := Save(db, u, closed);
    forall p | p in after.orders ensures Sound(TripOf(after, p), now) {
      SaveThenRead(db, u, closed, p);
      if p != u.order.id { LaterStillSound(TripOf(db, p), clock, now); }
    }
  }

  lemma LaterAllSound(db: Tables, clock: Time, now: Time)
    requires AllSound(db, clock) && clock <= now
    ensures AllSound(db, now)
  {
    hide Sound, Crewed, Formed, Recorded;
    forall o | o in db.orders ensures Sound(TripOf(db, o), now) { LaterStillSound(TripOf(db, o), clock, now); }
  }

  lemma SameOrder(db: Tables, o: Id, u: Trip)
    requires Referential(db) && o in db.orders && FreshIn(db, TripOf(db, o), u)
    ensures TripOf(db, o).order.id == o && u.order.id == o
  {
  }

  lemma FittingKeeps(s: State, o: Id, v: Verdict, now: Time)
    requires Inv(s) && s.clock <= now && o in s.db.orders && Fits(s.db, TripOf(s.db, o), v, now)
    ensures Inv(State(Save(s.db, v.trip, v.closed), now, s.done))
  {
    hide Sound, Crewed, Formed, Recorded, NoDoubleBooking, ReleasesKept, Referential, FreshIn, Evolves, NewUnbooked, AllSound;
    var t := TripOf(s.db, o);
    SameOrder(s.db, o, v.trip);
    OneOpenOf(v.trip, now);
    SaveKeepsBookings(s.db, t, v.trip, v.closed);
    SaveKeepsReleases(s.db, t, v.trip, v.closed, s.done);
    SaveKeepsReferences(s.db, v.trip, v.closed);
    SaveKeepsSound(s.db, v.trip, v.closed, s.clock, now);
  }

  // ---- Orders created, jobs finished ----------------------------------------------------------------

  lemma BlankIsSound(order: Order, now: Time)
    requires order.status == Draft && order.driver.None? && order.submittedAt.None? && order.startedAt.None?
    requires order.arrivedAt.None? && order.deliveredAt.None?
    ensures Sound(Trip(order, map[], map[], map[], None, map[], []), now)
  {
    hide Custody, Chain;
    BlankCustody(order);
  }

  lemma BlankCustody(order: Order)
    requires order.status == Draft && order.startedAt.None?
    ensures Custody(Trip(order, map[], map[], map[], None, map[], []))
  {
    assert Chain(Trip(order, map[], map[], map[], None, map[], []), []);
  }

  // An id no order uses: no row names it.
  lemma NobodysRows(db: Tables, id: Id)
    requires Referential(db) && id !in db.orders
    ensures AssignmentsOf(db.assignments, id) == map[] && OperationsOf(db.operations, id) == map[]
    ensures IncidentsOf(db.incidents, id) == map[] && HandoversOf(db.handovers, id) == map[]
    ensures id !in db.receipts && LogOf(db, id) == []
  {
  }

  lemma CreateKeepsSound(db: Tables, id: Id, order: Order, clock: Time, now: Time)
    requires Referential(db) && AllSound(db, clock) && clock <= now && id !in db.orders
    requires Sound(Trip(order, map[], map[], map[], None, map[], []), now)
    ensures AllSound(db.(orders := db.orders[id := order]), now)
  {
    hide Sound, Crewed, Formed, Recorded, Referential;
    var after := db.(orders := db.orders[id := order]);
    NobodysRows(db, id);
    LaterAllSound(db, clock, now);
    forall o | o in after.orders ensures Sound(TripOf(after, o), now) {
      if o != id { assert TripOf(after, o) == TripOf(db, o); }
    }
  }

  lemma CreateKeeps(s: State, id: Id, who: Actor, draft: DraftRequest, fleet: Registry, now: Time)
    requires Inv(s) && s.clock <= now && id !in s.db.orders
    ensures Inv(State(s.db.(orders := s.db.orders[id := NewDraft(id, who, draft, fleet)]), now, s.done))
  {
    hide Sound, Crewed, Formed, Recorded, AllSound, NoDoubleBooking;
    BlankIsSound(NewDraft(id, who, draft, fleet), now);
    CreateKeepsSound(s.db, id, NewDraft(id, who, draft, fleet), s.clock, now);
  }

  lemma SameOrdersSound(db: Tables, after: Tables, clock: Time, now: Time)
    requires AllSound(db, clock) && clock <= now && after == db.(queue := after.queue)
    ensures AllSound(after, now)
  {
    hide Sound, Crewed, Formed, Recorded;
    LaterAllSound(db, clock, now);
    forall o | o in after.orders ensures Sound(TripOf(after, o), now) { assert TripOf(after, o) == TripOf(db, o); }
  }

  lemma FinishKeeps(s: State, a: Id, now: Time)
    requires Inv(s) && s.clock <= now && a in s.db.queue
    ensures Inv(State(s.db.(queue := s.db.queue - {a}), now, s.done + {a}))
  {
    hide AllSound, NoDoubleBooking;
    SameOrdersSound(s.db, s.db.(queue := s.db.queue - {a}), s.clock, now);
  }

  lemma StillKeeps(s: State, now: Time)
    requires Inv(s) && s.clock <= now
    ensures Inv(State(s.db, now, s.done))
  {
    hide AllSound, NoDoubleBooking, ReleasesKept, Referential;
    LaterAllSound(s.db, s.clock, now);
  }

  lemma AimedSound(s: State, e: Event, o: Id)
    requires Inv(s) && Enabled(s, e) && Precheck(e.command, e.now).None? && Target(s.db, e.command) == Some(o)
    ensures o in s.db.orders && Deciding(s.db, o, e, s.clock)
  {
    hide Sound, Crewed, Formed, Recorded, NoDoubleBooking, ReleasesKept, Precheck;
  }

  lemma FinishIsUnchecked(e: Event)
    ensures e.command.FinishRelease? ==> Precheck(e.command, e.now).None?
  {
  }

  lemma StepKeeps(s: State, e: Event)
    requires Inv(s) && Enabled(s, e)
    ensures Inv(Step(s, e))
  {
    hide Inv, Decide, Target, Deciding, Fits, Precheck;
    FinishIsUnchecked(e);
    if Precheck(e.command, e.now).Some? {
      StillKeeps(s, e.now);
    } else {
      match e.command {
        case CreateOrder(who, id, draft, plan) =>
          if DraftObjection(who, draft, e.fleet).Some? || plan.Some? || id in s.db.orders { StillKeeps(s, e.now); }
          else { CreateKeeps(s, id, who, draft, e.fleet, e.now); }
        case FinishRelease(a) => FinishKeeps(s, a, e.now);
        case _ =>
          var target := Target(s.db, e.command);
          if target.None? {
            StillKeeps(s, e.now);
          } else {
            AimedSound(s, e, target.value);
            var v := Decide(s.db, target.value, e);
            if v.Refuse? {
              StillKeeps(s, e.now);
            } else {
              DecideFits(s.db, target.value, e, s.clock, v);
              FittingKeeps(s, target.value, v, e.now);
            }
          }
      }
    }
  }

  lemma InitialHolds()
    ensures Inv(INITIAL)
  {
  }
}
