// From each command's verdict: the trip stays sound, rows only accumulate, and what is reported
// closed is what closed.
module Verdicts {
  import opened Model
  import opened Eligibility
  import opened Trips
  import opened Soundness
  import opened Frames
  import opened Preservation
  import opened RecordKeeping

  predicate SameMatter(i: Incident, j: Incident) {
    j.order == i.order && j.cause == i.cause && j.kind == i.kind && j.expected == i.expected && j.actual == i.actual
  }

  // A reservation never changes who or when, and a closed one never changes at all.
  ghost predicate SeatsEvolve(t: Trip, u: Trip, closed: set<Id>) {
    && (forall a :: a in t.assignments ==>
          a in u.assignments && SamePlan(t.assignments[a], u.assignments[a])
          && (Open(t.assignments[a]) || u.assignments[a] == t.assignments[a])
          && (a in closed <==> Open(t.assignments[a]) && !Open(u.assignments[a])))
    && closed <= t.assignments.Keys
    && (forall a :: a in u.assignments && a !in t.assignments ==> Open(u.assignments[a]) && u.assignments[a].order == t.order.id)
  }

  ghost predicate RecordsEvolve(t: Trip, u: Trip) {
    && (forall k :: k in t.operations ==> k in u.operations && u.operations[k] == t.operations[k])
    && (forall i :: i in t.incidents ==>
          i in u.incidents && SameMatter(t.incidents[i], u.incidents[i])
          && (t.incidents[i].open || u.incidents[i] == t.incidents[i]))
    && t.handovers.Keys <= u.handovers.Keys
    && (t.receipt.Some? ==> u.receipt == t.receipt)
    && t.history <= u.history
  }

  // No row is removed, and none that is settled changes.
  ghost predicate Evolves(t: Trip, u: Trip, closed: set<Id>) {
    && u.order.id == t.order.id && u.order.origin == t.order.origin && u.order.destination == t.order.destination
    && SeatsEvolve(t, u, closed) && RecordsEvolve(t, u) && Rests(t, u)
  }

  predicate Terminal(status: OrderStatus) { status == OrderStatus.Completed || status == Cancelled }

  // A finished order keeps its row and its receipt; a delivered one gains no journal row, and an
  // incident is open when it is first recorded.
  ghost predicate Rests(t: Trip, u: Trip) {
    && (Terminal(t.order.status) ==> u.order == t.order && u.receipt == t.receipt)
    && (t.order.status == OrderStatus.Completed ==> u.operations == t.operations)
    && (forall i :: i in u.incidents && i !in t.incidents ==> u.incidents[i].open)
  }

  // The keys a committed command may add.
  ghost predicate Adds(t: Trip, u: Trip, assignment: set<Id>, incident: set<Id>, handover: set<Id>) {
    && u.assignments.Keys <= t.assignments.Keys + assignment
    && u.incidents.Keys <= t.incidents.Keys + incident
    && u.handovers.Keys <= t.handovers.Keys + handover
  }

  ghost predicate Settled(t: Trip, v: Verdict, now: Time, assignment: set<Id>, incident: set<Id>, handover: set<Id>) {
    v.Commit? && Sound(v.trip, now) && Evolves(t, v.trip, v.closed) && Adds(t, v.trip, assignment, incident, handover)
  }

  lemma WellKept(t: Trip, clock: Time)
    requires Sound(t, clock)
    ensures Owned(t) && OneInvitation(t)
    ensures t.order.status == Draft ==> Untouched(t)
  {
    hide Resubmitted, Strict, Recorded, Owned, Stamped, Proven, StartedBy, OneInvitation, OneOpen, Held;
  }

  lemma EditDraftRecord(t: Trip, u: Trip)
    requires Recorded(t) && u == t.(order := u.order) && SameSites(t, u) && u.order.declared == t.order.declared
    requires u.order.status == t.order.status == Draft && u.order.startedAt == t.order.startedAt && u.order.deliveredAt == t.order.deliveredAt
    ensures Recorded(u)
  {
    hide Logged, Journalled, Accounted, Custody;
    CustodyFrame(t, u);
    JournalFrame(t, u);
    AccountFrame(t, u);
  }

  lemma EditDraftSettles(t: Trip, who: Actor, change: DraftChange, route: Option<Route>, clock: Time, now: Time)
    requires Sound(t, clock) && clock <= now && EditDraft(t, who, change, route).Commit?
    ensures Settled(t, EditDraft(t, who, change, route), now, {}, {}, {})
  {
    hide Recorded;
    var u := EditDraft(t, who, change, route).trip;
    EditDraftRecord(t, u);
  }

  lemma DetailsSettle(t: Trip, who: Actor, packages: nat, counterparties: Option<Error>, clock: Time, now: Time)
    requires Sound(t, clock) && clock <= now && SetDetails(t, who, packages, counterparties).Commit?
    ensures Settled(t, SetDetails(t, who, packages, counterparties), now, {}, {}, {})
  {
    hide Sound, Crewed, Formed, Recorded;
    DetailsKeeps(t, SetDetails(t, who, packages, counterparties).trip, clock, now);
  }

  lemma SubmitSettles(t: Trip, who: Actor, now: Time, route: Option<Route>, clock: Time)
    requires Sound(t, clock) && clock <= now && Submit(t, who, now, route).Commit?
    ensures Settled(t, Submit(t, who, now, route), now, {}, {}, {})
  {
    hide Sound, Crewed, Formed, Recorded;
    SubmitKeeps(t, Submit(t, who, now, route).trip, who, now, route, clock);
  }

  lemma CancelEvolves(t: Trip, u: Trip, now: Time)
    requires Cancels(t, u, now)
    ensures Evolves(t, u, Cancellable(t)) && Adds(t, u, {}, {}, {})
  {
  }

  lemma CancelSettles(t: Trip, who: Actor, now: Time, reason: Option<StatusReason>, fleet: Registry, clock: Time)
    requires Sound(t, clock) && clock <= now && Cancel(t, who, now, reason, fleet).Commit?
    ensures Settled(t, Cancel(t, who, now, reason, fleet), now, {}, {}, {})
  {
    hide Sound, Crewed, Formed, Recorded, Evolves, Adds, Cancels, Cancellable;
    var v := Cancel(t, who, now, reason, fleet);
    CancelEffect(t, v.trip, v.closed, who, now, reason, fleet);
    CancelKeeps(t, v.trip, now, clock);
    CancelEvolves(t, v.trip, now);
  }

  lemma EvolvesOn(t: Trip, m: Trip, u: Trip, closed: set<Id>, added: set<Id>)
    requires Evolves(t, m, closed) && Evolves(m, u, {})
    requires m.assignments.Keys == t.assignments.Keys && Adds(t, m, {}, {}, {}) && Adds(m, u, added, {}, {})
    ensures Evolves(t, u, closed) && Adds(t, u, added, {}, {})
  {
    SeatsEvolveOn(t, m, u, closed);
    RecordsEvolveOn(t, m, u);
    hide SeatsEvolve, RecordsEvolve;
    RestsOn(t, m, u);
  }

  lemma SeatsEvolveOn(t: Trip, m: Trip, u: Trip, closed: set<Id>)
    requires SeatsEvolve(t, m, closed) && SeatsEvolve(m, u, {}) && m.assignments.Keys == t.assignments.Keys && m.order.id == t.order.id
    ensures SeatsEvolve(t, u, closed)
  {
  }

  lemma RecordsEvolveOn(t: Trip, m: Trip, u: Trip)
    requires RecordsEvolve(t, m) && RecordsEvolve(m, u)
    ensures RecordsEvolve(t, u)
  {
  }

  lemma RestsOn(t: Trip, m: Trip, u: Trip)
    requires Rests(t, m) && Rests(m, u) && m.incidents.Keys <= t.incidents.Keys
    ensures Rests(t, u)
  {
  }

  lemma WithdrawEvolves(t: Trip, u: Trip, a: Id, actor: Id, now: Time)
    requires Withdraws(t, u, a, actor, now)
    ensures Evolves(t, u, {a}) && Adds(t, u, {}, {}, {}) && u.assignments.Keys == t.assignments.Keys
  {
  }

  lemma InsertEvolves(t: Trip, u: Trip, id: Id)
    requires Offers(t, u, id)
    ensures Evolves(t, u, {}) && Adds(t, u, {id}, {}, {})
  {
  }

  // An accepted offer is an insertion, after a withdrawal if it replaces an assignment.
  lemma OfferEffect(t: Trip, who: Actor, now: Time, request: OfferRequest, fleet: Registry,
                    stored: Option<StoredRecommendation>, id: Id, taken: bool) returns (freed: Trip)
    requires Offer(t, who, now, request, fleet, stored, id, taken).Commit?
    ensures var v := Offer(t, who, now, request, fleet, stored, id, taken);
            var p := request.supersedes;
            && !taken && id !in t.assignments
            && v.trip == Put(freed, id, OfferRow(t.order.id, who, now, request))
            && v.closed == (if p.Some? then {p.value} else {}) && v.reply.None?
            && (if p.Some? then Withdraws(t, freed, p.value, who.user, now) else freed == t)
            && Offers(freed, v.trip, id)
  {
    var p := request.supersedes;
    freed := if p.Some? then Withdraw(t, p.value, who.user, now) else t;
  }

  lemma ReplacementSettles(t: Trip, freed: Trip, u: Trip, p: Id, actor: Id, id: Id, clock: Time, now: Time)
    requires Sound(t, clock) && clock <= now && Withdraws(t, freed, p, actor, now) && Offers(freed, u, id)
    ensures Sound(u, now) && Evolves(t, u, {p}) && Adds(t, u, {id}, {}, {})
  {
    hide Sound, Crewed, Formed, Recorded, Evolves, Adds, Offers, Withdraws;
    WithdrawEvolves(t, freed, p, actor, now);
    InsertEvolves(freed, u, id);
    WithdrawKeeps(t, freed, p, actor, now, clock);
    OfferKeeps(freed, u, id, now, now);
    EvolvesOn(t, freed, u, {p}, {id});
  }

  lemma OfferSettles(t: Trip, who: Actor, now: Time, request: OfferRequest, fleet: Registry,
                     stored: Option<StoredRecommendation>, id: Id, taken: bool, clock: Time)
    requires Sound(t, clock) && clock <= now && Offer(t, who, now, request, fleet, stored, id, taken).Commit?
    ensures Settled(t, Offer(t, who, now, request, fleet, stored, id, taken), now, {id}, {}, {})
    ensures !taken && id !in t.assignments
  {
    hide Sound, Crewed, Formed, Recorded, Evolves, Adds, Offer, Offers, Withdraws;
    var freed := OfferEffect(t, who, now, request, fleet, stored, id, taken);
    var u := Offer(t, who, now, request, fleet, stored, id, taken).trip;
    if request.supersedes.Some? {
      ReplacementSettles(t, freed, u, request.supersedes.value, who.user, id, clock, now);
    } else {
      OfferKeeps(t, u, id, clock, now);
      InsertEvolves(t, u, id);
    }
  }

  lemma TurnDownEvolves(t: Trip, u: Trip, a: Id)
    requires TurnsDown(t, u, a)
    ensures Evolves(t, u, {a}) && Adds(t, u, {}, {}, {})
  {
  }

  lemma StaysEvolves(t: Trip)
    ensures Evolves(t, t, {}) && Adds(t, t, {}, {}, {})
  {
  }

  lemma LapseEffect(t: Trip, a: Id, now: Time)
    requires a in t.assignments
    ensures var v := Lapse(t, a, now);
            v.Commit? && (if v.closed == {} then v.trip == t else v.closed == {a} && TurnsDown(t, v.trip, a))
  {
  }

  lemma LapseSettles(t: Trip, a: Id, now: Time, clock: Time)
    requires Sound(t, clock) && clock <= now && a in t.assignments
    ensures Settled(t, Lapse(t, a, now), now, {}, {}, {})
  {
    hide Sound, Crewed, Formed, Recorded, Evolves, Adds, TurnsDown, Lapse;
    var v := Lapse(t, a, now);
    LapseEffect(t, a, now);
    if v.closed == {} {
      LaterStillSound(t, clock, now);
      StaysEvolves(t);
    } else {
      TurnDownKeeps(t, v.trip, a, clock, now);
      TurnDownEvolves(t, v.trip, a);
    }
  }

  lemma ExpireSettles(t: Trip, a: Id, now: Time, fleet: Registry, clock: Time)
    requires Sound(t, clock) && clock <= now && a in t.assignments && Expire(t, a, now, fleet).Commit?
    ensures Settled(t, Expire(t, a, now, fleet), now, {}, {}, {})
  {
    hide Sound, Crewed, Formed, Recorded, Evolves, Adds, Lapse;
    LapseSettles(t, a, now, clock);
  }

  lemma LaterStillSound(t: Trip, clock: Time, now: Time)
    requires Sound(t, clock) && clock <= now
    ensures Sound(t, now)
  {
    hide Crewed, Recorded, Owned, Stamped, Proven, OneInvitation;
  }

  lemma AcceptEffect(t: Trip, a: Id, who: Actor, now: Time, fleet: Registry)
    requires a in t.assignments && Accept(t, a, who, now, fleet).Commit? && now < t.assignments[a].offerExpiresAt
    ensures var v := Accept(t, a, who, now, fleet); v == Done(v.trip, {}) && Accepts(t, v.trip, a, who.user, now)
  {
    hide Objection;
  }

  lemma AcceptEvolves(t: Trip, u: Trip, a: Id, actor: Id, now: Time)
    requires Accepts(t, u, a, actor, now)
    ensures Evolves(t, u, {}) && Adds(t, u, {}, {}, {})
  {
  }

  lemma AcceptLapses(t: Trip, a: Id, who: Actor, now: Time, fleet: Registry)
    requires a in t.assignments && Accept(t, a, who, now, fleet).Commit? && now >= t.assignments[a].offerExpiresAt
    ensures Accept(t, a, who, now, fleet) == Lapse(t, a, now).(reply := Some(AssignmentExpired))
  {
  }

  lemma AcceptSettles(t: Trip, a: Id, who: Actor, now: Time, fleet: Registry, clock: Time)
    requires Sound(t, clock) && clock <= now && a in t.assignments && Accept(t, a, who, now, fleet).Commit?
    ensures Settled(t, Accept(t, a, who, now, fleet), now, {}, {}, {})
  {
    hide Sound, Crewed, Formed, Recorded, Evolves, Adds, Lapse, Accept, Accepts;
    if now >= t.assignments[a].offerExpiresAt {
      LapseSettles(t, a, now, clock);
      AcceptLapses(t, a, who, now, fleet);
    } else {
      var u := Accept(t, a, who, now, fleet).trip;
      AcceptEffect(t, a, who, now, fleet);
      AcceptKeeps(t, u, a, who.user, now, clock);
      AcceptEvolves(t, u, a, who.user, now);
    }
  }

  lemma RejectSettles(t: Trip, a: Id, who: Actor, now: Time, fleet: Registry, clock: Time)
    requires Sound(t, clock) && clock <= now && a in t.assignments && Reject(t, a, who, now, fleet).Commit?
    ensures Settled(t, Reject(t, a, who, now, fleet), now, {}, {}, {})
  {
    hide Sound, Crewed, Formed, Recorded;
    TurnDownKeeps(t, Reject(t, a, who, now, fleet).trip, a, clock, now);
  }

  lemma StartEffect(t: Trip, a: Id, who: Actor, now: Time, fleet: Registry)
    requires a in t.assignments && Start(t, a, who, now, fleet).Commit?
    ensures var v := Start(t, a, who, now, fleet); v == Done(v.trip, {}) && Starts(t, v.trip, a, who.user, now)
  {
  }

  lemma StartEvolves(t: Trip, u: Trip, a: Id, actor: Id, now: Time)
    requires Starts(t, u, a, actor, now)
    ensures Evolves(t, u, {}) && Adds(t, u, {}, {}, {})
  {
  }

  lemma StartSettles(t: Trip, a: Id, who: Actor, now: Time, fleet: Registry, clock: Time)
    requires Sound(t, clock) && clock <= now && a in t.assignments && Start(t, a, who, now, fleet).Commit?
    ensures Settled(t, Start(t, a, who, now, fleet), now, {}, {}, {})
  {
    hide Sound, Crewed, Formed, Recorded, Evolves, Adds, Start, Starts;
    var u := Start(t, a, who, now, fleet).trip;
    StartEffect(t, a, who, now, fleet);
    StartKeeps(t, u, a, who.user, now, clock);
    StartEvolves(t, u, a, who.user, now);
  }

  lemma ArriveEffect(t: Trip, a: Id, who: Actor, now: Time, fleet: Registry)
    requires a in t.assignments && Arrive(t, a, who, now, fleet).Commit?
    ensures var v := Arrive(t, a, who, now, fleet); v == Done(v.trip, {}) && Arrives(t, v.trip, a, who.user, now)
  {
  }

  lemma ArriveEvolves(t: Trip, u: Trip, a: Id, actor: Id, now: Time)
    requires Arrives(t, u, a, actor, now)
    ensures Evolves(t, u, {}) && Adds(t, u, {}, {}, {})
  {
  }

  lemma ArriveSettles(t: Trip, a: Id, who: Actor, now: Time, fleet: Registry, clock: Time)
    requires Sound(t, clock) && clock <= now && a in t.assignments && Arrive(t, a, who, now, fleet).Commit?
    ensures Settled(t, Arrive(t, a, who, now, fleet), now, {}, {}, {})
  {
    hide Sound, Crewed, Formed, Recorded, Evolves, Adds, Arrive, Arrives;
    var u := Arrive(t, a, who, now, fleet).trip;
    ArriveEffect(t, a, who, now, fleet);
    ArriveKeeps(t, u, a, who.user, now, clock);
    ArriveEvolves(t, u, a, who.user, now);
  }

  lemma CompleteEffect(t: Trip, a: Id, who: Actor, now: Time, request: CompleteRequest, fleet: Registry)
    requires a in t.assignments && Complete(t, a, who, now, request, fleet).Commit?
    ensures var v := Complete(t, a, who, now, request, fleet); v == Done(v.trip, {a}) && Completes(t, v.trip, a, who.user, now)
  {
  }

  lemma CompleteEvolves(t: Trip, u: Trip, a: Id, actor: Id, now: Time)
    requires Completes(t, u, a, actor, now)
    ensures Evolves(t, u, {a}) && Adds(t, u, {}, {}, {})
  {
  }

  lemma CompleteSettles(t: Trip, a: Id, who: Actor, now: Time, request: CompleteRequest, fleet: Registry, clock: Time)
    requires Sound(t, clock) && clock <= now && a in t.assignments && Complete(t, a, who, now, request, fleet).Commit?
    ensures Settled(t, Complete(t, a, who, now, request, fleet), now, {}, {}, {})
  {
    hide Sound, Crewed, Formed, Recorded, Evolves, Adds, Complete, Completes;
    var u := Complete(t, a, who, now, request, fleet).trip;
    CompleteEffect(t, a, who, now, request, fleet);
    CompleteKeeps(t, u, a, who.user, now, clock);
    CompleteEvolves(t, u, a, who.user, now);
  }

  // ---- Journal rows ---------------------------------------------------------------------------

  function DiscrepancyRow(t: Trip, cause: Cause, expected: Option<nat>, actual: nat,
                          assignment: Option<Id>, warehouse: Option<Id>, actor: Id, now: Time): Incident {
    Incident(t.order.id, assignment, warehouse, cause, QuantityDiscrepancy, expected, Some(actual), true,
             Unresolved, actor, now, None, None)
  }

  // What the guards of a recorded operation leave true, and what was recorded.
  lemma OperateGuards(t: Trip, who: Actor, now: Time, request: OperationRequest, fleet: Registry,
                      elsewhere: bool, id: Id, taken: bool, incident: Id, spent: bool, v: Verdict)
    requires request.packages >= 0 && v == Operate(t, who, now, request, fleet, elsewhere, id, taken, incident, spent) && v.Commit?
    ensures var k := KeyOf(t, request.kind, request.assignment);
            var site := Site(t.order, request.kind);
            var expected := ExpectedBy(t, request.kind, request.assignment);
            && v.reply.None? && site.Some? && !taken && Recordable(t, k) && NamesOwn(t, k.assignment)
            && (expected.Some? && expected.value != request.packages ==> !spent && incident !in t.incidents)
            && var u := Entered(t, k, Operation(id, site.value, request.packages, who.user, now), OfOperation(id), expected, site,
                                incident, who.user, now);
               v == if request.kind == UndoLoad then Done(Unloaded(u, request.assignment.value, who.user, now), {request.assignment.value})
                    else Done(u, {})
  {
    hide ExpectedIn, WithDiscrepancy;
  }

  lemma EnteredEnters(t: Trip, k: OpKey, op: Operation, incident: Id, site: Option<Id>, actor: Id, now: Time, spent: bool)
    requires Recordable(t, k) && NamesOwn(t, k.assignment) && site == Some(op.warehouse) == Site(t.order, k.kind)
    requires forall l :: l in t.operations ==> t.operations[l].id != op.id
    requires var expected := ExpectedBy(t, k.kind, k.assignment);
             expected.Some? && expected.value != op.packages ==> !spent && incident !in t.incidents
    ensures var expected := ExpectedBy(t, k.kind, k.assignment);
            var u := Entered(t, k, op, OfOperation(op.id), expected, site, incident, actor, now);
            var row := DiscrepancyRow(t, OfOperation(op.id), expected, op.packages, k.assignment, site, actor, now);
            Enters(t, u, k, op, incident, row) && SameCrew(t, u) && Adds(t, u, {}, if spent then {} else {incident}, {})
            && u.handovers == t.handovers && u.receipt == t.receipt
  {
    hide ExpectedIn, Recordable;
  }

  lemma OperateEffect(t: Trip, who: Actor, now: Time, request: OperationRequest, fleet: Registry,
                      elsewhere: bool, id: Id, taken: bool, incident: Id, spent: bool)
    requires request.packages >= 0
    requires Operate(t, who, now, request, fleet, elsewhere, id, taken, incident, spent).Commit?
    requires forall k :: k in t.operations ==> t.operations[k].id != id
    ensures var v := Operate(t, who, now, request, fleet, elsewhere, id, taken, incident, spent);
            var k := KeyOf(t, request.kind, request.assignment);
            var site := Site(t.order, request.kind);
            var row := DiscrepancyRow(t, OfOperation(id), ExpectedBy(t, request.kind, request.assignment), request.packages,
                                      request.assignment, site, who.user, now);
            && v.reply.None? && site.Some? && !taken
            && var op := Operation(id, site.value, request.packages, who.user, now);
               && Adds(t, v.trip, {}, if spent then {} else {incident}, {})
               && v.closed == (if request.kind == UndoLoad then {request.assignment.value} else {})
               && (if request.kind == UndoLoad then Undoes(t, v.trip, k, op, incident, row, who.user, now)
                   else Performs(t, v.trip, k, op, incident, row))
  {
    hide ExpectedIn, Operate, Entered, Enters;
    var v := Operate(t, who, now, request, fleet, elsewhere, id, taken, incident, spent);
    OperateGuards(t, who, now, request, fleet, elsewhere, id, taken, incident, spent, v);
    var k, site := KeyOf(t, request.kind, request.assignment), Site(t.order, request.kind);
    EnteredEnters(t, k, Operation(id, site.value, request.packages, who.user, now), incident, site, who.user, now, spent);
    if request.kind == UndoLoad {
      UnloadedEnters(t, k, Operation(id, site.value, request.packages, who.user, now), incident, site, who.user, now);
    }
  }

  // Giving the assignment up changes nothing that was entered.
  lemma UnloadedEnters(t: Trip, k: OpKey, op: Operation, incident: Id, site: Option<Id>, actor: Id, now: Time)
    requires k.assignment.Some? && k.assignment.value in t.assignments
    ensures var expected := ExpectedBy(t, k.kind, k.assignment);
            var row := DiscrepancyRow(t, OfOperation(op.id), expected, op.packages, k.assignment, site, actor, now);
            var u := Entered(t, k, op, OfOperation(op.id), expected, site, incident, actor, now);
            && k.assignment.value in u.assignments
            && (Enters(t, u, k, op, incident, row) ==> Enters(t, Unloaded(u, k.assignment.value, actor, now), k, op, incident, row))
  {
    hide ExpectedIn, Recordable;
  }

  lemma PerformEvolves(t: Trip, u: Trip, k: OpKey, op: Operation, incident: Id, row: Incident)
    requires Performs(t, u, k, op, incident, row)
    ensures Evolves(t, u, {})
  {
    hide ExpectedIn;
  }

  lemma UndoEvolves(t: Trip, u: Trip, k: OpKey, op: Operation, incident: Id, row: Incident, actor: Id, now: Time)
    requires Undoes(t, u, k, op, incident, row, actor, now)
    ensures Evolves(t, u, {k.assignment.value})
  {
    hide ExpectedIn;
  }

  lemma OperateSettles(t: Trip, who: Actor, now: Time, request: OperationRequest, fleet: Registry,
                       elsewhere: bool, id: Id, taken: bool, incident: Id, spent: bool, clock: Time)
    requires Sound(t, clock) && clock <= now && request.packages >= 0
    requires Operate(t, who, now, request, fleet, elsewhere, id, taken, incident, spent).Commit?
    requires forall k :: k in t.operations ==> t.operations[k].id != id
    ensures Settled(t, Operate(t, who, now, request, fleet, elsewhere, id, taken, incident, spent), now,
                    {}, if spent then {} else {incident}, {})
  {
    hide Sound, Crewed, Formed, Recorded, Evolves, Adds, Performs, Undoes, Operate;
    OperateEffect(t, who, now, request, fleet, elsewhere, id, taken, incident, spent);
    var u := Operate(t, who, now, request, fleet, elsewhere, id, taken, incident, spent).trip;
    var k, site := KeyOf(t, request.kind, request.assignment), Site(t.order, request.kind);
    var op := Operation(id, site.value, request.packages, who.user, now);
    var row := DiscrepancyRow(t, OfOperation(id), ExpectedBy(t, request.kind, request.assignment), request.packages,
                              request.assignment, site, who.user, now);
    if request.kind == UndoLoad {
      UndoKeeps(t, u, k, op, incident, row, who.user, now, clock);
      UndoEvolves(t, u, k, op, incident, row, who.user, now);
    } else {
      PerformKeeps(t, u, k, op, incident, row, clock, now);
      PerformEvolves(t, u, k, op, incident, row);
    }
  }

  lemma ReportSettles(t: Trip, who: Actor, now: Time, request: IncidentRequest, fleet: Registry, id: Id, taken: bool, clock: Time)
    requires Sound(t, clock) && clock <= now && NonNegative(request.expected) && NonNegative(request.actual)
    requires Report(t, who, now, request, fleet, id, taken).Commit?
    ensures Settled(t, Report(t, who, now, request, fleet, id, taken), now, {}, {id}, {}) && !taken
  {
    hide Sound, Crewed, Formed, Recorded, Server;
    var u := Report(t, who, now, request, fleet, id, taken).trip;
    IncidentKeeps(t, u, id, u.incidents[id], clock, now);
  }

  lemma ResolveEvolves(t: Trip, u: Trip, id: Id, row: Incident)
    requires Resolves(t, u, id, row)
    ensures Evolves(t, u, {}) && Adds(t, u, {}, {}, {})
  {
  }

  lemma ResolveEffect(t: Trip, id: Id, who: Actor, now: Time, request: ResolveRequest)
    requires id in t.incidents && Resolve(t, id, who, now, request).Commit?
    ensures var v := Resolve(t, id, who, now, request);
            v.closed == {} && v.reply.None? && id in v.trip.incidents && Resolves(t, v.trip, id, v.trip.incidents[id])
  {
  }

  lemma ResolveSettles(t: Trip, id: Id, who: Actor, now: Time, request: ResolveRequest, clock: Time)
    requires Sound(t, clock) && clock <= now && id in t.incidents && Resolve(t, id, who, now, request).Commit?
    ensures Settled(t, Resolve(t, id, who, now, request), now, {}, {}, {})
  {
    hide Sound, Crewed, Formed, Recorded, Evolves, Adds, Resolves, Resolve, OneInvitation, Owned;
    var u := Resolve(t, id, who, now, request).trip;
    WellKept(t, clock);
    ResolveEffect(t, id, who, now, request);
    IncidentKeeps(t, u, id, u.incidents[id], clock, now);
    ResolveEvolves(t, u, id, u.incidents[id]);
  }

  lemma AcknowledgeEffect(t: Trip, who: Actor, now: Time, request: ReceiptRequest, fleet: Registry,
                          elsewhere: bool, incident: Id, spent: bool)
    requires request.packages >= 0 && Acknowledge(t, who, now, request, fleet, elsewhere, incident, spent).Commit?
    ensures var v := Acknowledge(t, who, now, request, fleet, elsewhere, incident, spent);
            var row := DiscrepancyRow(t, OfReceipt, ExpectedAtReceipt(t), request.packages, Some(request.assignment),
                                      t.order.origin, who.user, now);
            && v.closed == {} && v.reply.None? && Adds(t, v.trip, {}, if spent then {} else {incident}, {})
            && v.trip.receipt.Some? && Signs(t, v.trip, v.trip.receipt.value, incident, row)
  {
    hide ExpectedAtReceipt;
  }

  lemma SignEvolves(t: Trip, u: Trip, receipt: Receipt, incident: Id, row: Incident)
    requires Signs(t, u, receipt, incident, row)
    ensures Evolves(t, u, {})
  {
    hide ExpectedAtReceipt;
  }

  lemma AcknowledgeSettles(t: Trip, who: Actor, now: Time, request: ReceiptRequest, fleet: Registry,
                           elsewhere: bool, incident: Id, spent: bool, clock: Time)
    requires Sound(t, clock) && clock <= now && request.packages >= 0
    requires Acknowledge(t, who, now, request, fleet, elsewhere, incident, spent).Commit?
    ensures Settled(t, Acknowledge(t, who, now, request, fleet, elsewhere, incident, spent), now,
                    {}, if spent then {} else {incident}, {})
  {
    hide Sound, Crewed, Formed, Recorded, Evolves, Adds, Signs, Acknowledge, ExpectedAtReceipt;
    AcknowledgeEffect(t, who, now, request, fleet, elsewhere, incident, spent);
    var u := Acknowledge(t, who, now, request, fleet, elsewhere, incident, spent).trip;
    var row := DiscrepancyRow(t, OfReceipt, ExpectedAtReceipt(t), request.packages, Some(request.assignment),
                              t.order.origin, who.user, now);
    SignKeeps(t, u, u.receipt.value, incident, row, clock, now);
    SignEvolves(t, u, u.receipt.value, incident, row);
  }

  lemma InvitationEvolves(t: Trip, u: Trip)
    requires Invites(t, u) && t.handovers.Keys <= u.handovers.Keys
    ensures Evolves(t, u, {})
  {
  }

  lemma InviteEffect(t: Trip, who: Actor, now: Time, request: HandoverRequest, fleet: Registry, id: Id, taken: bool)
    requires Owned(t) && Invite(t, who, now, request, fleet, id, taken).Commit?
    ensures var v := Invite(t, who, now, request, fleet, id, taken);
            && !taken && v.closed == {} && v.reply.None? && Invites(t, v.trip)
            && Adds(t, v.trip, {}, {}, {id}) && t.handovers.Keys <= v.trip.handovers.Keys
  {
  }

  lemma InviteSettles(t: Trip, who: Actor, now: Time, request: HandoverRequest, fleet: Registry, id: Id, taken: bool, clock: Time)
    requires Sound(t, clock) && clock <= now && Invite(t, who, now, request, fleet, id, taken).Commit?
    ensures Settled(t, Invite(t, who, now, request, fleet, id, taken), now, {}, {}, {id}) && !taken
  {
    hide Sound, Crewed, Formed, Recorded, Evolves, Adds, Invites, Invite, OneInvitation, Owned;
    WellKept(t, clock);
    InviteEffect(t, who, now, request, fleet, id, taken);
    var u := Invite(t, who, now, request, fleet, id, taken).trip;
    InvitationKeeps(t, u, clock, now);
    InvitationEvolves(t, u);
  }

  lemma HandOverEvolves(t: Trip, u: Trip, h: Id, a: Id, id: Id, now: Time)
    requires HandsOver(t, u, h, a, id, now)
    ensures Evolves(t, u, {a}) && Adds(t, u, {id}, {}, {})
  {
  }

  lemma AnswerEffect(t: Trip, h: Id, who: Actor, now: Time, action: HandoverAction, fleet: Registry, id: Id, taken: bool)
    requires Owned(t) && OneInvitation(t) && (t.order.status == Draft ==> Untouched(t))
    requires h in t.handovers && Answer(t, h, who, now, action, fleet, id, taken).Commit?
    ensures var v := Answer(t, h, who, now, action, fleet, id, taken);
            if action == AcceptHandover && now < t.handovers[h].expiresAt
            then !taken && v.closed == {t.handovers[h].previous} && HandsOver(t, v.trip, h, t.handovers[h].previous, id, now)
            else v.closed == {} && Invites(t, v.trip) && Adds(t, v.trip, {}, {}, {}) && t.handovers.Keys <= v.trip.handovers.Keys
  {
  }

  lemma AnswerSettles(t: Trip, h: Id, who: Actor, now: Time, action: HandoverAction, fleet: Registry,
                      id: Id, taken: bool, clock: Time)
    requires Sound(t, clock) && clock < now && h in t.handovers && Answer(t, h, who, now, action, fleet, id, taken).Commit?
    ensures Settled(t, Answer(t, h, who, now, action, fleet, id, taken), now, if taken then {} else {id}, {}, {})
  {
    hide Sound, Crewed, Formed, Recorded, Evolves, HandsOver, Invites, Answer, OneInvitation, Owned, Untouched;
    WellKept(t, clock);
    AnswerEffect(t, h, who, now, action, fleet, id, taken);
    var u := Answer(t, h, who, now, action, fleet, id, taken).trip;
    if action == AcceptHandover && now < t.handovers[h].expiresAt {
      HandOverKeeps(t, u, h, t.handovers[h].previous, id, now, clock);
      HandOverEvolves(t, u, h, t.handovers[h].previous, id, now);
    } else {
      InvitationKeeps(t, u, clock, now);
      InvitationEvolves(t, u);
    }
  }
}
