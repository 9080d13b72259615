// A command that answers with an error has changed nothing, but for the two that close what they
// find overdue.
module Failures {
  import opened Model
  import opened Eligibility
  import opened Trips
  import opened Soundness
  import opened Database
  import opened Core
  import opened CoreSafety
  import opened Guarantees
  import opened RowWrites

  // A committed verdict reports no error.
  ghost predicate Frank(v: Verdict) { v.Commit? ==> v.reply.None? }

  lemma OperateIsFrank(t: Trip, who: Actor, now: Time, request: OperationRequest, fleet: Registry,
                       elsewhere: bool, id: Id, taken: bool, incident: Id, spent: bool)
    requires request.packages >= 0
    ensures Frank(Operate(t, who, now, request, fleet, elsewhere, id, taken, incident, spent))
  {
    hide ExpectedIn, OperationObjection;
  }

  lemma OfferIsFrank(t: Trip, who: Actor, now: Time, request: OfferRequest, fleet: Registry,
                     stored: Option<StoredRecommendation>, id: Id, taken: bool)
    ensures Frank(Offer(t, who, now, request, fleet, stored, id, taken))
  {
    hide Objection, Recommended, EffectiveIn;
  }

  lemma OrderCommandsAreFrank(db: Tables, o: Id, e: Event, v: Verdict)
    requires o in db.orders && Target(db, e.command) == Some(o) && Precheck(e.command, e.now).None?
    requires v == Decide(db, o, e) && AboutOrder(e.command)
    ensures Frank(v)
  {
    hide Offer, AssignmentTaken, TripOf, EffectiveIn, ChangedDraft, Shippable;
    if e.command.CreateAssignment? {
      var c := e.command;
      OfferIsFrank(TripOf(db, o), c.who, e.now, c.offer, e.fleet, c.stored, c.id,
                   AssignmentTaken(db, o, c.id, c.offer.driver, c.offer.vehicle, c.offer.plannedFrom, c.offer.plannedTo));
    }
  }

  lemma AssignmentCommandsAreFrank(db: Tables, o: Id, e: Event, v: Verdict)
    requires o in db.orders && Target(db, e.command) == Some(o) && Precheck(e.command, e.now).None?
    requires v == Decide(db, o, e) && AboutAssignment(e.command) && !e.command.AcceptAssignment?
    ensures Frank(v)
  {
    hide Objection, HasOpenIncident, Performed, Accept;
  }

  lemma RecordsAreFrank(db: Tables, o: Id, e: Event, v: Verdict)
    requires o in db.orders && Target(db, e.command) == Some(o) && Precheck(e.command, e.now).None?
    requires v == Decide(db, o, e) && !AboutOrder(e.command) && !AboutAssignment(e.command) && !e.command.UpdateTripHandover?
    ensures Frank(v)
  {
    hide Operate, OperationTaken, Objection, Server, Carrier, Settles, ExpectedAtReceipt, TripOf, Performed, LapseInvitations;
    if e.command.CreateWarehouseOperation? {
      var c := e.command;
      OperateIsFrank(TripOf(db, o), c.who, e.now, c.operation, e.fleet,
                     c.operation.assignment.Some? && c.operation.assignment.value in db.assignments,
                     c.id, OperationTaken(db, c.id), c.incident, c.incident in db.incidents);
    }
  }

  // An offer found overdue on acceptance is closed, and the error says so.
  lemma LateAccept(db: Tables, a: Id, who: Actor, now: Time, fleet: Registry, v: Verdict)
    requires Constrained(db) && a in db.assignments && v == Accept(TripOf(db, db.assignments[a].order), a, who, now, fleet)
    ensures v.Commit? && v.reply.Some? ==>
              var row := db.assignments[a];
              && row.status == Pending && now >= row.offerExpiresAt && v.reply == Some(AssignmentExpired)
              && Save(db, v.trip, v.closed) == db.(assignments := db.assignments[a := row.(status := Expired)],
                                                   queue := Queued(db.queue, a, row.(status := Expired)))
  {
    ReadAssignment(db, a);
    hide Constrained, Save, TripOf, Objection;
    var o, row := db.assignments[a].order, db.assignments[a];
    if v.Commit? && v.reply.Some? { SaveMove(db, o, v.trip, {a}, a, row.(status := Expired)); }
  }

  // So is an invitation found overdue when it is answered.
  lemma LateAnswer(db: Tables, h: Id, who: Actor, now: Time, action: HandoverAction, fleet: Registry, id: Id, taken: bool, v: Verdict)
    requires Constrained(db) && h in db.handovers
    requires h in TripOf(db, db.handovers[h].order).handovers
    requires v == Answer(TripOf(db, db.handovers[h].order), h, who, now, action, fleet, id, taken)
    ensures v.Commit? && v.reply.Some? ==>
              var item := db.handovers[h];
              && item.status == HandoverPending && now >= item.expiresAt && v.reply == Some(AssignmentExpired)
              && Save(db, v.trip, v.closed) == db.(handovers := db.handovers[h := item.(status := HandoverExpired)])
  {
    ReadHandover(db, h);
    hide Constrained, Save, TripOf, Objection, TakeOver;
    TakeOverIsFrank(TripOf(db, db.handovers[h].order), h, now, fleet, id, taken);
    if v.Commit? && v.reply.Some? { SaveHandover(db, db.handovers[h].order, h, db.handovers[h].(status := HandoverExpired)); }
  }

  lemma TakeOverIsFrank(t: Trip, h: Id, now: Time, fleet: Registry, id: Id, taken: bool)
    requires h in t.handovers
    ensures t.handovers[h].previous in t.assignments && t.handovers[h].driver in fleet.drivers && t.handovers[h].vehicle in fleet.vehicles ==>
              Frank(TakeOver(t, h, now, fleet, id, taken))
  {
    hide Objection;
  }

  // What a failed command leaves behind.
  ghost predicate RolledBack(db: Tables, e: Event, after: Tables) {
    || after == db
    || (e.command.AcceptAssignment?
        && var a := e.command.assignment;
           a in db.assignments && db.assignments[a].status == Pending && e.now >= db.assignments[a].offerExpiresAt
           && after == db.(assignments := db.assignments[a := db.assignments[a].(status := Expired)],
                           queue := Queued(db.queue, a, db.assignments[a].(status := Expired))))
    || (e.command.UpdateTripHandover?
        && var h := e.command.handover;
           h in db.handovers && db.handovers[h].status == HandoverPending && e.now >= db.handovers[h].expiresAt
           && after == db.(handovers := db.handovers[h := db.handovers[h].(status := HandoverExpired)]))
  }

  lemma DecisionRollsBack(db: Tables, o: Id, e: Event, v: Verdict)
    requires Constrained(db) && o in db.orders && Target(db, e.command) == Some(o) && Precheck(e.command, e.now).None?
    requires v == Decide(db, o, e) && Settle(db, v).reply.Some?
    ensures RolledBack(db, e, Settle(db, v).db)
  {
    hide Constrained, Save, TripOf, Accept, Answer, Offer, Operate, AssignmentTaken, OperationTaken;
    if e.command.AcceptAssignment? {
      LateAccept(db, e.command.assignment, e.command.who, e.now, e.fleet, v);
    } else if e.command.UpdateTripHandover? {
      var c := e.command;
      ReadHandover(db, c.handover);
      var item := db.handovers[c.handover];
      LateAnswer(db, c.handover, c.who, e.now, c.action, e.fleet, c.id,
                 AssignmentTaken(db, o, c.id, item.driver, item.vehicle, e.now, item.plannedTo), v);
    } else {
      hide Decide, Target, Precheck;
      if AboutOrder(e.command) { OrderCommandsAreFrank(db, o, e, v); }
      else if AboutAssignment(e.command) { AssignmentCommandsAreFrank(db, o, e, v); }
      else { RecordsAreFrank(db, o, e, v); }
    }
  }

  // In every state: an error means that nothing happened, or that an overdue offer or invitation was
  // closed and nothing else.
  lemma FailuresRollBack(s: State, e: Event)
    requires Inv(s) && Enabled(s, e) && Execute(s.db, e).reply.Some?
    ensures RolledBack(s.db, e, Execute(s.db, e).db)
  {
    hide Inv, Decide, Target, Precheck, Settle, Constrained, RolledBack;
    NothingRollsBack(s.db, e);
    InvariantConstrains(s);
    if Precheck(e.command, e.now).None? && !e.command.CreateOrder? && !e.command.FinishRelease? {
      var target := Target(s.db, e.command);
      if target.Some? {
        AimedAt(s, e, target.value);
        DecisionRollsBack(s.db, target.value, e, Decide(s.db, target.value, e));
      }
    }
  }

  lemma NothingRollsBack(db: Tables, e: Event)
    ensures RolledBack(db, e, db)
  {
  }
}
