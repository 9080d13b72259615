// Every committed command leaves a sound trip sound.
module Preservation {
  import opened Model
  import opened Eligibility
  import opened Trips
  import opened Soundness
  import opened Frames

  // ---- An offer turned down or lapsed: nothing but its own row changes ------------------------

  ghost predicate TurnsDown(t: Trip, u: Trip, a: Id) {
    && a in t.assignments && a in u.assignments && u == Put(t, a, u.assignments[a])
    && t.assignments[a].status == Pending
    && (u.assignments[a].status == Rejected || u.assignments[a].status == Expired)
    && SamePlan(t.assignments[a], u.assignments[a])
    && u.assignments[a].startedAt == t.assignments[a].startedAt && u.assignments[a].completedAt == t.assignments[a].completedAt
  }

  lemma TurnDownCrew(t: Trip, u: Trip, a: Id)
    requires TurnsDown(t, u, a) && Crewed(t)
    ensures Crewed(u)
  {
    if Resubmitted(t) { StillResubmitted(t, u); }
  }

  lemma TurnDownProof(t: Trip, u: Trip, a: Id)
    requires TurnsDown(t, u, a) && Owned(t) && Proven(t)
    ensures Owned(u) && Proven(u)
  {
  }

  lemma TurnDownForm(t: Trip, u: Trip, a: Id, clock: Time, now: Time)
    requires TurnsDown(t, u, a) && Formed(t, clock) && clock <= now
    ensures Formed(u, now)
  {
    hide Owned, Proven;
    TurnDownProof(t, u, a);
  }

  lemma TurnDownRecord(t: Trip, u: Trip, a: Id)
    requires TurnsDown(t, u, a) && Recorded(t) && Stamped(t)
    ensures Recorded(u)
  {
    hide Logged, Journalled, Accounted, Custody;
    CustodyFrame(t, u);
    JournalFrame(t, u);
    AccountFrame(t, u);
  }

  lemma TurnDownKeeps(t: Trip, u: Trip, a: Id, clock: Time, now: Time)
    requires TurnsDown(t, u, a) && Sound(t, clock) && clock <= now
    ensures Sound(u, now)
  {
    hide TurnsDown, Crewed, Recorded, Owned, Stamped, Proven, StartedBy, OneInvitation;
    TurnDownCrew(t, u, a);
    TurnDownForm(t, u, a, clock, now);
    TurnDownRecord(t, u, a);
  }

  // ---- Accept -----------------------------------------------------------------------------------

  ghost predicate Accepts(t: Trip, u: Trip, a: Id, actor: Id, now: Time) {
    && a in t.assignments && t.assignments[a].status == Pending && t.order.status == Ready
    && u == t.(order := t.order.(status := Assigned, driver := Some(t.assignments[a].driver), assignedAt := Some(now)),
               assignments := t.assignments[a := t.assignments[a].(status := Accepted, acceptedAt := Some(now))],
               history := t.history + [StatusChange(Ready, Assigned, actor, None, now)])
  }

  lemma AcceptCrew(t: Trip, u: Trip, a: Id, actor: Id, now: Time)
    requires Accepts(t, u, a, actor, now) && Crewed(t)
    ensures Crewed(u)
  {
    assert a in u.assignments && u.order.driver == Some(u.assignments[a].driver);
    if Resubmitted(t) { StillResubmitted(t, u); }
  }

  lemma AcceptForm(t: Trip, u: Trip, a: Id, actor: Id, now: Time, clock: Time)
    requires Accepts(t, u, a, actor, now) && Formed(t, clock) && clock <= now
    ensures Formed(u, now)
  {
  }

  lemma AcceptRecord(t: Trip, u: Trip, a: Id, actor: Id, now: Time)
    requires Accepts(t, u, a, actor, now) && Recorded(t) && Stamped(t)
    ensures Recorded(u)
  {
    hide Logged, Journalled, Accounted, Custody;
    CustodyFrame(t, u);
    JournalFrame(t, u);
    AccountFrame(t, u);
    LogStep(t.history, u.history[|t.history|]);
  }

  lemma AcceptKeeps(t: Trip, u: Trip, a: Id, actor: Id, now: Time, clock: Time)
    requires Accepts(t, u, a, actor, now) && Sound(t, clock) && clock <= now
    ensures Sound(u, now)
  {
    hide Accepts, Crewed, Recorded, Owned, Stamped, Proven, StartedBy, OneInvitation;
    AcceptCrew(t, u, a, actor, now);
    AcceptForm(t, u, a, actor, now, clock);
    AcceptRecord(t, u, a, actor, now);
  }

  // ---- Start --------------------------------------------------------------------------------------

  ghost predicate Starts(t: Trip, u: Trip, a: Id, actor: Id, now: Time) {
    && a in t.assignments && t.assignments[a].status == Accepted && t.order.status == Assigned
    && (t.order.origin.Some? ==> Performed(t, Load, Some(a)))
    && u == t.(order := t.order.(status := InTransit, startedAt := Some(now)),
               assignments := t.assignments[a := t.assignments[a].(status := Active, startedAt := Some(now))],
               history := t.history + [StatusChange(Assigned, InTransit, actor, None, now)])
  }

  lemma StartCrew(t: Trip, u: Trip, a: Id, actor: Id, now: Time)
    requires Starts(t, u, a, actor, now) && Crewed(t)
    ensures Crewed(u)
  {
    assert a in u.assignments && u.order.driver == Some(u.assignments[a].driver);
    if Resubmitted(t) { StillResubmitted(t, u); }
  }

  lemma StartForm(t: Trip, u: Trip, a: Id, actor: Id, now: Time, clock: Time)
    requires Starts(t, u, a, actor, now) && Formed(t, clock) && clock <= now
    ensures Formed(u, now)
  {
  }

  // A raw load row of an accepted assignment is an effective load.
  lemma AcceptedLoadIsEffective(t: Trip, a: Id)
    requires LoadsHeld(t) && a in t.assignments && t.assignments[a].status == Accepted
    ensures Effective(t, a) <==> Performed(t, Load, Some(a))
  {
    assert !Performed(t, UndoLoad, Some(a));
  }

  lemma StartJournal(t: Trip, u: Trip, a: Id, actor: Id, now: Time)
    requires Starts(t, u, a, actor, now) && Journalled(t)
    ensures Journalled(u)
  {
    hide Filed, LoadsHeld, UnloadsHeld;
    AcceptedLoadIsEffective(t, a);
    if t.order.origin.Some? { assert Effective(u, a); }
    FiledFrame(t, u);
    LoadsFrame(t, u);
    UnloadsFrame(t, u);
  }

  lemma StartCustody(t: Trip, u: Trip, a: Id, actor: Id, now: Time)
    requires Starts(t, u, a, actor, now) && Stamped(t)
    ensures Custody(u)
  {
    assert Chain(u, [a]);
  }

  lemma StartKeeps(t: Trip, u: Trip, a: Id, actor: Id, now: Time, clock: Time)
    requires Starts(t, u, a, actor, now) && Sound(t, clock) && clock <= now
    ensures Sound(u, now)
  {
    hide Crewed, Owned, Stamped, Proven, StartedBy, OneInvitation, Logged, Journalled, Accounted, Custody;
    StartCrew(t, u, a, actor, now);
    StartForm(t, u, a, actor, now, clock);
    StartJournal(t, u, a, actor, now);
    StartCustody(t, u, a, actor, now);
    AccountFrame(t, u);
    LogStep(t.history, u.history[|t.history|]);
  }

  // ---- Arrive ---------------------------------------------------------------------------------------

  ghost predicate Arrives(t: Trip, u: Trip, a: Id, actor: Id, now: Time) {
    && a in t.assignments && t.assignments[a].status == Active && t.order.status == InTransit
    && u == t.(order := t.order.(status := Arrived, arrivedAt := Some(now)),
               history := t.history + [StatusChange(InTransit, Arrived, actor, None, now)])
  }

  lemma ArriveCrew(t: Trip, u: Trip, a: Id, actor: Id, now: Time)
    requires Arrives(t, u, a, actor, now) && Crewed(t)
    ensures Crewed(u)
  {
    if Resubmitted(t) { StillResubmitted(t, u); }
  }

  lemma ArriveForm(t: Trip, u: Trip, a: Id, actor: Id, now: Time, clock: Time)
    requires Arrives(t, u, a, actor, now) && Formed(t, clock) && clock <= now
    ensures Formed(u, now)
  {
  }

  lemma ArriveRecord(t: Trip, u: Trip, a: Id, actor: Id, now: Time)
    requires Arrives(t, u, a, actor, now) && Recorded(t) && Stamped(t)
    ensures Recorded(u)
  {
    hide Logged, Journalled, Accounted, Custody;
    CustodyFrame(t, u);
    JournalFrame(t, u);
    AccountFrame(t, u);
    LogStep(t.history, u.history[|t.history|]);
  }

  lemma ArriveKeeps(t: Trip, u: Trip, a: Id, actor: Id, now: Time, clock: Time)
    requires Arrives(t, u, a, actor, now) && Sound(t, clock) && clock <= now
    ensures Sound(u, now)
  {
    hide Arrives, Crewed, Recorded, Owned, Stamped, Proven, StartedBy, OneInvitation;
    ArriveCrew(t, u, a, actor, now);
    ArriveForm(t, u, a, actor, now, clock);
    ArriveRecord(t, u, a, actor, now);
  }

  // ---- Complete ---------------------------------------------------------------------------------------

  // What a committed completion did, and the guards that prove the delivery.
  ghost predicate Completes(t: Trip, u: Trip, a: Id, actor: Id, now: Time) {
    && a in t.assignments && t.assignments[a].status == Active && t.order.status == Arrived
    && !HasOpenIncident(t) && (t.order.destination.Some? ==> Performed(t, Unload, Some(a)))
    && (t.order.policy == 1 ==> t.receipt.Some?) && (t.receipt.Some? ==> t.receipt.value.assignment == a)
    && u == t.(order := t.order.(status := OrderStatus.Completed, deliveredAt := Some(now)),
               assignments := t.assignments[a := t.assignments[a].(status := AssignmentStatus.Completed, completedAt := Some(now))],
               history := t.history + [StatusChange(Arrived, OrderStatus.Completed, actor, None, now)])
  }

  lemma CompleteCrew(t: Trip, u: Trip, a: Id, actor: Id, now: Time)
    requires Completes(t, u, a, actor, now) && Crewed(t)
    ensures Crewed(u)
  {
    assert a in u.assignments && u.order.driver == Some(u.assignments[a].driver);
    if Resubmitted(t) { StillResubmitted(t, u); }
  }

  lemma CompleteProven(t: Trip, u: Trip, a: Id, actor: Id, now: Time)
    requires Completes(t, u, a, actor, now) && Proven(t) && Coupled(t)
    ensures Proven(u)
  {
  }

  lemma CompleteForm(t: Trip, u: Trip, a: Id, actor: Id, now: Time, clock: Time)
    requires Completes(t, u, a, actor, now) && Formed(t, clock) && Coupled(t) && clock <= now
    ensures Formed(u, now)
  {
    hide Proven, OneOpen, Held;
    CompleteProven(t, u, a, actor, now);
  }

  lemma ActiveLegIsLast(t: Trip, legs: seq<Id>, a: Id)
    requires Chain(t, legs) && OneOpen(t) && t.order.status != OrderStatus.Completed
    requires Started(t, a) && t.assignments[a].status == Active
    ensures legs != [] && legs[|legs| - 1] == a
  {
  }

  lemma CompleteCustody(t: Trip, u: Trip, a: Id, actor: Id, now: Time)
    requires Completes(t, u, a, actor, now) && Custody(t) && OneOpen(t) && Stamped(t)
    ensures Custody(u)
  {
    var legs :| Chain(t, legs);
    hide Tiles, OneOpen;
    ActiveLegIsLast(t, legs, a);
    CompleteTiles(t, u, a, actor, now, legs);
    assert Chain(u, legs);
  }

  lemma CompleteTiles(t: Trip, u: Trip, a: Id, actor: Id, now: Time, legs: seq<Id>)
    requires Completes(t, u, a, actor, now) && Stamped(t) && Tiles(t, legs) && legs != [] && legs[|legs| - 1] == a
    ensures Tiles(u, legs)
  {
    LastAppearsOnce(t, legs);
    hide Tiles;
    TilesFrame(t, u, legs);
  }

  lemma CompleteJournal(t: Trip, u: Trip, a: Id, actor: Id, now: Time)
    requires Completes(t, u, a, actor, now) && Journalled(t) && Stamped(t)
    ensures Journalled(u)
  {
    hide Journalled;
    JournalFrame(t, u);
  }

  lemma CompleteKeeps(t: Trip, u: Trip, a: Id, actor: Id, now: Time, clock: Time)
    requires Completes(t, u, a, actor, now) && Sound(t, clock) && clock <= now
    ensures Sound(u, now)
  {
    hide OneOpen, Owned, Stamped, Proven, StartedBy, OneInvitation, Logged, Journalled, Accounted, Custody;
    assert Crewed(u) by { CompleteCrew(t, u, a, actor, now); }
    CompleteForm(t, u, a, actor, now, clock);
    CompleteJournal(t, u, a, actor, now);
    CompleteCustody(t, u, a, actor, now);
    AccountFrame(t, u);
    LogStep(t.history, u.history[|t.history|]);
  }

  // ---- Cancel -----------------------------------------------------------------------------------------

  // What a committed cancellation did, and the one guard the invariants rest on.
  ghost predicate Cancels(t: Trip, u: Trip, now: Time) {
    && CanTransition(t.order.status, Cancelled)
    && u.order == t.order.(status := Cancelled, cancelledAt := Some(now))
    && u.operations == t.operations && u.incidents == t.incidents && u.receipt == t.receipt && u.handovers == t.handovers
    && |u.history| == |t.history| + 1 && t.history <= u.history
    && u.history[|t.history|].from == t.order.status && u.history[|t.history|].to == Cancelled
    && u.assignments.Keys == t.assignments.Keys
    && (forall a :: a in t.assignments ==>
          var row := t.assignments[a];
          if row.status == Pending || row.status == Accepted
          then u.assignments[a] == ReleasedRow(row, OrderCancelled, now) && !Effective(t, a)
          else u.assignments[a] == row)
  }

  lemma CancelEffect(t: Trip, u: Trip, closed: set<Id>, who: Actor, now: Time, reason: Option<StatusReason>, fleet: Registry)
    requires Cancel(t, who, now, reason, fleet) == Done(u, closed)
    ensures Cancels(t, u, now) && closed == Cancellable(t)
  {
  }

  lemma CancelCrew(t: Trip, u: Trip, now: Time)
    requires Cancels(t, u, now) && Crewed(t)
    ensures Crewed(u)
  {
    if Resubmitted(t) { StillResubmitted(t, u); }
  }

  lemma CancelForm(t: Trip, u: Trip, now: Time, clock: Time)
    requires Cancels(t, u, now) && Formed(t, clock) && clock <= now
    ensures Formed(u, now)
  {
  }

  // Nothing effective is cancelled: the load would have had to be undone first.
  lemma CancelLoads(t: Trip, u: Trip, now: Time)
    requires Cancels(t, u, now) && LoadsHeld(t) && Stamped(t)
    ensures LoadsHeld(u)
  {
    forall a ensures Effective(u, a) == Effective(t, a)
                     && Performed(u, UndoLoad, Some(a)) == Performed(t, UndoLoad, Some(a))
                     && Performed(u, Load, Some(a)) == Performed(t, Load, Some(a)) {}
  }

  lemma CancelRecord(t: Trip, u: Trip, now: Time)
    requires Cancels(t, u, now) && Recorded(t) && Stamped(t)
    ensures Recorded(u)
  {
    hide Filed, LoadsHeld, Accounted, Custody, Logged;
    FiledFrame(t, u);
    CancelLoads(t, u, now);
    CustodyFrame(t, u);
    AccountFrame(t, u);
    assert u.history == t.history + [u.history[|t.history|]];
    LogStep(t.history, u.history[|t.history|]);
    forall a ensures Performed(u, Unload, Some(a)) == Performed(t, Unload, Some(a)) {}
  }

  lemma CancelKeeps(t: Trip, u: Trip, now: Time, clock: Time)
    requires Cancels(t, u, now) && Sound(t, clock) && clock <= now
    ensures Sound(u, now)
  {
    hide Cancels, Crewed, Recorded, Owned, Stamped, Proven, StartedBy, OneInvitation;
    CancelCrew(t, u, now);
    CancelForm(t, u, now, clock);
    CancelRecord(t, u, now);
  }

  // ---- Submit --------------------------------------------------------------------------------------------

  ghost predicate Submits(t: Trip, u: Trip, who: Actor, now: Time, route: Option<Route>) {
    Submit(t, who, now, route) == Done(u, {})
  }

  lemma SubmitCrew(t: Trip, u: Trip, who: Actor, now: Time, route: Option<Route>)
    requires Submits(t, u, who, now, route) && Crewed(t)
    ensures Crewed(u)
    ensures Strict(u) <==> t.order.status == Draft
  {
    if t.order.status == Assigned { assert IsResubmission(u.history[|t.history|]); }
  }

  lemma SubmitForm(t: Trip, u: Trip, who: Actor, now: Time, route: Option<Route>, clock: Time)
    requires Submits(t, u, who, now, route) && Formed(t, clock) && clock <= now
    ensures Formed(u, now)
  {
  }

  lemma SubmitRecord(t: Trip, u: Trip, who: Actor, now: Time, route: Option<Route>)
    requires Submits(t, u, who, now, route) && Recorded(t) && Stamped(t)
    ensures Recorded(u)
  {
    hide Logged, Journalled, Accounted, Custody;
    CustodyFrame(t, u);
    JournalFrame(t, u);
    AccountFrame(t, u);
    LogStep(t.history, u.history[|t.history|]);
  }

  lemma SubmitKeeps(t: Trip, u: Trip, who: Actor, now: Time, route: Option<Route>, clock: Time)
    requires Submits(t, u, who, now, route) && Sound(t, clock) && clock <= now
    ensures Sound(u, now)
  {
    hide Submits, Crewed, Recorded, Owned, Stamped, Proven, StartedBy, OneInvitation;
    SubmitCrew(t, u, who, now, route);
    SubmitForm(t, u, who, now, route, clock);
    SubmitRecord(t, u, who, now, route);
  }

  // ---- Transport details -----------------------------------------------------------------------------------

  ghost predicate Details(t: Trip, u: Trip) {
    t.order.status == Draft && u.order.declared.Some? && u == t.(order := t.order.(declared := u.order.declared, policy := 1))
  }

  lemma DetailsRecord(t: Trip, u: Trip)
    requires Details(t, u) && Recorded(t) && Untouched(t)
    ensures Recorded(u)
  {
    hide Journalled, Custody;
    CustodyFrame(t, u);
    JournalFrame(t, u);
  }

  lemma DetailsKeeps(t: Trip, u: Trip, clock: Time, now: Time)
    requires Details(t, u) && Sound(t, clock) && clock <= now
    ensures Sound(u, now)
  {
    hide Recorded;
    assert Untouched(t);
    DetailsRecord(t, u);
  }

  // ---- Withdrawing the assignment an offer replaces -----------------------------------------------------------

  ghost predicate Withdraws(t: Trip, u: Trip, a: Id, actor: Id, now: Time) {
    && a in t.assignments && (t.assignments[a].status == Pending || t.assignments[a].status == Accepted)
    && !Effective(t, a) && (t.order.status == Ready || t.order.status == Assigned)
    && u == Withdraw(t, a, actor, now)
  }

  lemma WithdrawFrees(t: Trip, u: Trip, a: Id, actor: Id, now: Time)
    requires Withdraws(t, u, a, actor, now) && Crewed(t)
    ensures u.order.status == Ready && forall b :: b in u.assignments ==> !Open(u.assignments[b])
  {
    hide Effective, EffectiveIn, Resubmitted;
  }

  lemma WithdrawCrew(t: Trip, u: Trip, a: Id, actor: Id, now: Time)
    requires Withdraws(t, u, a, actor, now) && Crewed(t)
    ensures Crewed(u) && u.order.status == Ready
    ensures forall b :: b in u.assignments ==> !Open(u.assignments[b])
  {
    hide EffectiveIn;
    WithdrawFrees(t, u, a, actor, now);
    if Resubmitted(t) { StillResubmitted(t, u); }
  }

  lemma WithdrawProof(t: Trip, u: Trip, a: Id, actor: Id, now: Time)
    requires Withdraws(t, u, a, actor, now) && Owned(t) && Proven(t)
    ensures Owned(u) && Proven(u)
  {
    hide Effective;
  }

  lemma WithdrawForm(t: Trip, u: Trip, a: Id, actor: Id, now: Time, clock: Time)
    requires Withdraws(t, u, a, actor, now) && Formed(t, clock) && clock <= now
    ensures Formed(u, now)
  {
    hide Owned, Proven, Effective;
    WithdrawProof(t, u, a, actor, now);
  }

  lemma WithdrawLoads(t: Trip, u: Trip, a: Id, actor: Id, now: Time)
    requires Withdraws(t, u, a, actor, now) && LoadsHeld(t)
    ensures LoadsHeld(u)
  {
    forall b ensures Effective(u, b) == Effective(t, b)
                     && Performed(u, UndoLoad, Some(b)) == Performed(t, UndoLoad, Some(b))
                     && Performed(u, Load, Some(b)) == Performed(t, Load, Some(b)) {}
  }

  lemma WithdrawRecord(t: Trip, u: Trip, a: Id, actor: Id, now: Time)
    requires Withdraws(t, u, a, actor, now) && Recorded(t) && Stamped(t)
    ensures Recorded(u)
  {
    hide Filed, LoadsHeld, Accounted, Custody, Logged;
    FiledFrame(t, u);
    WithdrawLoads(t, u, a, actor, now);
    CustodyFrame(t, u);
    AccountFrame(t, u);
    if t.order.status == Assigned { LogStep(t.history, u.history[|t.history|]); }
    forall b ensures Performed(u, Unload, Some(b)) == Performed(t, Unload, Some(b)) {}
  }

  lemma WithdrawKeeps(t: Trip, u: Trip, a: Id, actor: Id, now: Time, clock: Time)
    requires Withdraws(t, u, a, actor, now) && Sound(t, clock) && clock <= now
    ensures Sound(u, now) && u.order.status == Ready
    ensures forall b :: b in u.assignments ==> !Open(u.assignments[b])
  {
    hide Withdraws, Crewed, Recorded, Owned, Stamped, Proven, StartedBy, OneInvitation;
    WithdrawCrew(t, u, a, actor, now);
    WithdrawForm(t, u, a, actor, now, clock);
    WithdrawRecord(t, u, a, actor, now);
  }

  // ---- Inserting an offer ----------------------------------------------------------------------------------------

  ghost predicate Offers(t: Trip, u: Trip, id: Id) {
    && id !in t.assignments && id in u.assignments && u == Put(t, id, u.assignments[id])
    && t.order.status == Ready && (forall a :: a in t.assignments ==> !Open(t.assignments[a]))
    && u.assignments[id].status == Pending && u.assignments[id].order == t.order.id
    && u.assignments[id].startedAt.None? && u.assignments[id].completedAt.None?
  }

  lemma OfferCrew(t: Trip, u: Trip, id: Id)
    requires Offers(t, u, id) && Crewed(t)
    ensures Crewed(u)
  {
    if Resubmitted(t) { StillResubmitted(t, u); }
  }

  lemma OfferForm(t: Trip, u: Trip, id: Id, clock: Time, now: Time)
    requires Offers(t, u, id) && Formed(t, clock) && clock <= now
    ensures Formed(u, now)
  {
  }

  lemma OfferRecord(t: Trip, u: Trip, id: Id)
    requires Offers(t, u, id) && Recorded(t)
    ensures Recorded(u)
  {
    hide Logged, Journalled, Accounted, Custody;
    CustodyFrame(t, u);
    JournalFrame(t, u);
    AccountFrame(t, u);
  }

  lemma OfferKeeps(t: Trip, u: Trip, id: Id, clock: Time, now: Time)
    requires Offers(t, u, id) && Sound(t, clock) && clock <= now
    ensures Sound(u, now)
  {
    hide Offers, Crewed, Recorded, Owned, Stamped, Proven, StartedBy, OneInvitation;
    OfferCrew(t, u, id);
    OfferForm(t, u, id, clock, now);
    OfferRecord(t, u, id);
  }

  // ---- Handover in transit: one leg ends, the next begins ------------------------------------------------------------

  ghost predicate HandsOver(t: Trip, u: Trip, h: Id, a: Id, id: Id, now: Time) {
    && h in t.handovers && t.handovers[h].status == HandoverPending && t.handovers[h].previous == a
    && a in t.assignments && t.assignments[a].status == Active && id !in t.assignments
    && t.order.status == InTransit
    && u.order == t.order.(driver := Some(t.handovers[h].driver))
    && u.assignments == t.assignments[a := ReleasedRow(t.assignments[a], InTransitHandover, now)]
                                     [id := NextLeg(t.order.id, t.handovers[h], now)]
    && u.handovers == t.handovers[h := t.handovers[h].(status := HandoverCompleted, completedAt := Some(now), next := Some(id))]
    && u.operations == t.operations && u.incidents == t.incidents && u.receipt == t.receipt && u.history == t.history
  }

  lemma HandOverCrew(t: Trip, u: Trip, h: Id, a: Id, id: Id, now: Time)
    requires HandsOver(t, u, h, a, id, now) && Crewed(t)
    ensures Crewed(u)
  {
    assert u.order.driver == Some(u.assignments[id].driver);
    if Resubmitted(t) { StillResubmitted(t, u); }
  }

  lemma HandOverForm(t: Trip, u: Trip, h: Id, a: Id, id: Id, now: Time, clock: Time)
    requires HandsOver(t, u, h, a, id, now) && Formed(t, clock) && clock <= now
    ensures Formed(u, now)
  {
  }

  lemma HandOverJournal(t: Trip, u: Trip, h: Id, a: Id, id: Id, now: Time)
    requires HandsOver(t, u, h, a, id, now) && Journalled(t) && Stamped(t)
    ensures Journalled(u)
  {
    hide Filed;
    FiledFrame(t, u);
    forall b ensures Effective(u, b) == Effective(t, b)
                     && Performed(u, UndoLoad, Some(b)) == Performed(t, UndoLoad, Some(b))
                     && Performed(u, Load, Some(b)) == Performed(t, Load, Some(b))
                     && Performed(u, Unload, Some(b)) == Performed(t, Unload, Some(b)) {}
  }

  lemma HandOverCustody(t: Trip, u: Trip, h: Id, a: Id, id: Id, now: Time, clock: Time)
    requires HandsOver(t, u, h, a, id, now) && Custody(t) && OneOpen(t) && Stamped(t) && StartedBy(t, clock) && clock < now
    ensures Custody(u)
  {
    var legs :| Chain(t, legs);
    ActiveLegIsLast(t, legs, a);
    HandOverTiles(t, u, h, a, id, now, legs, clock);
    assert Chain(u, legs + [id]);
  }

  lemma LastAppearsOnce(t: Trip, legs: seq<Id>)
    requires Tiles(t, legs)
    ensures forall i :: 0 <= i < |legs| ==> Started(t, legs[i]) && (i < |legs| - 1 ==> legs[i] != legs[|legs| - 1])
  {
    forall i | 0 <= i < |legs| ensures Started(t, legs[i]) && (i < |legs| - 1 ==> legs[i] != legs[|legs| - 1]) {
      assert Started(t, legs[i]) && Started(t, legs[|legs| - 1]);
    }
  }

  lemma HandOverTiles(t: Trip, u: Trip, h: Id, a: Id, id: Id, now: Time, legs: seq<Id>, clock: Time)
    requires HandsOver(t, u, h, a, id, now) && Stamped(t) && StartedBy(t, clock) && clock < now
    requires Tiles(t, legs) && legs != [] && legs[|legs| - 1] == a
    ensures Tiles(u, legs + [id])
  {
    hide Tiles, Stamped;
    LastAppearsOnce(t, legs);
    assert u.handovers[h].status == HandoverCompleted;
    TilesExtend(t, u, legs, id);
  }

  lemma HandOverKeeps(t: Trip, u: Trip, h: Id, a: Id, id: Id, now: Time, clock: Time)
    requires HandsOver(t, u, h, a, id, now) && Sound(t, clock) && clock < now
    ensures Sound(u, now)
  {
    hide Owned, OneOpen, Stamped, Proven, StartedBy, OneInvitation, Logged, Journalled, Accounted, Custody;
    assert Crewed(u) by { HandOverCrew(t, u, h, a, id, now); }
    HandOverForm(t, u, h, a, id, now, clock);
    HandOverJournal(t, u, h, a, id, now);
    HandOverCustody(t, u, h, a, id, now, clock);
    AccountFrame(t, u);
  }
}
