// What holds over whole runs of the order service.
module Guarantees {
  import opened Model
  import opened Eligibility
  import opened Trips
  import opened Soundness
  import opened Frames
  import opened Verdicts
  import opened Database
  import opened Core
  import opened CoreSafety

  // ---- Runs ---------------------------------------------------------------------------------

  ghost function Run(s: State, events: seq<Event>): State
    decreases |events|
  {
    if events == [] then s else Run(Step(s, events[0]), events[1..])
  }

  ghost predicate Legal(s: State, events: seq<Event>)
    decreases |events|
  {
    events == [] || (Enabled(s, events[0]) && Legal(Step(s, events[0]), events[1..]))
  }

  lemma {:induction false} RunKeeps(s: State, events: seq<Event>)
    requires Inv(s) && Legal(s, events)
    ensures Inv(Run(s, events))
    decreases |events|
  {
    hide Inv, Step, Enabled;
    if events != [] {
      StepKeeps(s, events[0]);
      RunKeeps(Step(s, events[0]), events[1..]);
    }
  }

  // ---- Reservations and the coupling of an order to its assignment -------------------------------

  ghost predicate CoupledAsDesigned(t: Trip) {
    && OneOpen(t)
    && match t.order.status
       case Draft => t.assignments == map[] && t.order.driver.None?
       case Ready => t.order.driver.None?
         && forall a :: a in t.assignments && Open(t.assignments[a]) ==> t.assignments[a].status == Pending
       case Assigned => Held(t, Accepted)
       case InTransit => Held(t, Active)
       case Arrived => Held(t, Active)
       case Completed => Held(t, AssignmentStatus.Completed) && forall a :: a in t.assignments ==> !Open(t.assignments[a])
       case Cancelled => forall a :: a in t.assignments ==> !Open(t.assignments[a])
  }

  // Two reservations that share a driver or a vehicle do not overlap in time.
  predicate Compatible(a: Assignment, b: Assignment) {
    Open(a) && Open(b) && (a.driver == b.driver || a.vehicle == b.vehicle) ==>
      a.plannedTo <= b.plannedFrom || b.plannedTo <= a.plannedFrom
  }

  lemma CrewedIsCoupled(t: Trip)
    requires Crewed(t)
    ensures CoupledAsDesigned(t) || (t.order.status == Ready && Resubmitted(t))
    ensures OneOpen(t)
  {
  }

  lemma ReservationsAndCoupling(s: State, events: seq<Event>)
    requires Inv(s) && Legal(s, events)
    ensures var db := Run(s, events).db;
            && (forall a, b :: a in db.assignments && b in db.assignments && a != b ==>
                  Compatible(db.assignments[a], db.assignments[b]))
            && (forall o :: o in db.orders ==>
                  var t := TripOf(db, o);
                  OneOpen(t) && (CoupledAsDesigned(t) || (t.order.status == Ready && Resubmitted(t))))
  {
    hide Formed, Recorded, Crewed, Run, Legal, Referential, ReleasesKept, CoupledAsDesigned, OneOpen;
    RunKeeps(s, events);
    var db := Run(s, events).db;
    forall o | o in db.orders
      ensures OneOpen(TripOf(db, o))
              && (CoupledAsDesigned(TripOf(db, o)) || (TripOf(db, o).order.status == Ready && Resubmitted(TripOf(db, o))))
    {
      assert Sound(TripOf(db, o), Run(s, events).clock);
      CrewedIsCoupled(TripOf(db, o));
    }
  }

  // ---- Rows only accumulate ---------------------------------------------------------------------------

  ghost predicate AssignmentsGrow(before: map<Id, Assignment>, after: map<Id, Assignment>) {
    forall a :: a in before ==>
      a in after && SamePlan(before[a], after[a]) && (Open(before[a]) || after[a] == before[a])
  }

  ghost predicate IncidentsGrow(before: map<Id, Incident>, after: map<Id, Incident>) {
    forall i :: i in before ==>
      i in after && SameMatter(before[i], after[i]) && (before[i].open || after[i] == before[i])
  }

  ghost predicate OperationsGrow(before: Journal, after: Journal) {
    forall k :: k in before ==> k in after && after[k] == before[k]
  }

  // Between two states of the database.
  ghost predicate Grows(db: Tables, after: Tables) {
    && db.orders.Keys <= after.orders.Keys
    && AssignmentsGrow(db.assignments, after.assignments)
    && OperationsGrow(db.operations, after.operations)
    && IncidentsGrow(db.incidents, after.incidents)
    && (forall o :: o in db.receipts ==> o in after.receipts && after.receipts[o] == db.receipts[o])
    && (forall o :: LogOf(db, o) <= LogOf(after, o))
  }

  lemma SaveGrowsAssignments(db: Tables, u: Trip, closed: set<Id>)
    requires u.order.id in db.orders && Evolves(TripOf(db, u.order.id), u, closed)
    requires FreshIn(db, TripOf(db, u.order.id), u)
    ensures AssignmentsGrow(db.assignments, db.assignments + u.assignments)
  {
    forall a | a in db.assignments && db.assignments[a].order == u.order.id ensures a in TripOf(db, u.order.id).assignments {}
  }

  lemma SaveGrowsIncidents(db: Tables, u: Trip, closed: set<Id>)
    requires u.order.id in db.orders && Evolves(TripOf(db, u.order.id), u, closed)
    requires FreshIn(db, TripOf(db, u.order.id), u)
    ensures IncidentsGrow(db.incidents, db.incidents + u.incidents)
  {
    forall i | i in db.incidents && db.incidents[i].order == u.order.id ensures i in TripOf(db, u.order.id).incidents {}
  }

  lemma SaveGrowsOperations(db: Tables, u: Trip, closed: set<Id>)
    requires u.order.id in db.orders && Evolves(TripOf(db, u.order.id), u, closed)
    requires FreshIn(db, TripOf(db, u.order.id), u)
    ensures OperationsGrow(db.operations, db.operations + u.operations)
  {
    forall k | k in db.operations && k.order == u.order.id ensures k in TripOf(db, u.order.id).operations {}
  }

  lemma SaveGrows(db: Tables, u: Trip, closed: set<Id>)
    requires u.order.id in db.orders && Evolves(TripOf(db, u.order.id), u, closed)
    requires FreshIn(db, TripOf(db, u.order.id), u)
    ensures Grows(db, Save(db, u, closed))
  {
    hide AssignmentsGrow, IncidentsGrow, OperationsGrow;
    SaveGrowsAssignments(db, u, closed);
    SaveGrowsIncidents(db, u, closed);
    SaveGrowsOperations(db, u, closed);
  }

  lemma GrowsOn(db: Tables, middle: Tables, after: Tables)
    requires Grows(db, middle) && Grows(middle, after)
    ensures Grows(db, after)
  {
    forall o ensures LogOf(db, o) <= LogOf(after, o) {
      assert LogOf(db, o) <= LogOf(middle, o) && LogOf(middle, o) <= LogOf(after, o);
    }
  }

  lemma SettleGrows(s: State, e: Event, o: Id)
    requires Inv(s) && Enabled(s, e) && Precheck(e.command, e.now).None? && Target(s.db, e.command) == Some(o)
    ensures o in s.db.orders && Deciding(s.db, o, e, s.clock) && Grows(s.db, Settle(s.db, Decide(s.db, o, e)).db)
  {
    hide Inv, Sound, Crewed, Formed, Recorded, NoDoubleBooking, ReleasesKept, Precheck, Referential, FreshIn, Evolves, NewUnbooked,
         Decide, Target, Deciding;
    AimedSound(s, e, o);
    AimedAt(s, e, o);
    var v := Decide(s.db, o, e);
    if v.Commit? {
      DecideFits(s.db, o, e, s.clock, v);
      SameOrder(s.db, o, v.trip);
      SaveGrows(s.db, v.trip, v.closed);
    }
  }

  lemma AimedAt(s: State, e: Event, o: Id)
    requires Inv(s) && Enabled(s, e) && Precheck(e.command, e.now).None? && Target(s.db, e.command) == Some(o)
    ensures o in s.db.orders && Referential(s.db)
  {
    hide AllSound, NoDoubleBooking, ReleasesKept, Precheck;
  }

  lemma StepGrows(s: State, e: Event)
    requires Inv(s) && Enabled(s, e)
    ensures Grows(s.db, Step(s, e).db)
  {
    hide Inv, Precheck, Target, Decide, Deciding, Settle;
    if Precheck(e.command, e.now).None? && !e.command.CreateOrder? && !e.command.FinishRelease? {
      var target := Target(s.db, e.command);
      if target.Some? { SettleGrows(s, e, target.value); }
    }
  }

  lemma {:induction false} RunGrows(s: State, events: seq<Event>)
    requires Inv(s) && Legal(s, events)
    ensures Grows(s.db, Run(s, events).db)
    decreases |events|
  {
    hide Inv, Step, Enabled, Grows;
    if events == [] {
      GrowsSelf(s.db);
    } else {
      StepKeeps(s, events[0]);
      StepGrows(s, events[0]);
      RunGrows(Step(s, events[0]), events[1..]);
      GrowsOn(s.db, Step(s, events[0]).db, Run(s, events).db);
    }
  }

  lemma GrowsSelf(db: Tables)
    ensures Grows(db, db)
  {
  }

  // ---- One order across a step ---------------------------------------------------------------------

  lemma OtherOrdersStay(s: State, e: Event, o: Id, p: Id)
    requires Inv(s) && Enabled(s, e) && Precheck(e.command, e.now).None? && Target(s.db, e.command) == Some(o)
    requires p in s.db.orders
    ensures o in s.db.orders && Deciding(s.db, o, e, s.clock)
    ensures var v := Decide(s.db, o, e);
            TripOf(Settle(s.db, v).db, p) == if v.Commit? && p == o then v.trip else TripOf(s.db, p)
    ensures var v := Decide(s.db, o, e);
            v.Commit? ==> Fits(s.db, TripOf(s.db, o), v, e.now)
  {
    hide Inv, Sound, Crewed, Formed, Recorded, Precheck, Referential, FreshIn, Evolves, NewUnbooked, Decide, Target, Deciding, TripOf, Save;
    AimedSound(s, e, o);
    AimedAt(s, e, o);
    var v := Decide(s.db, o, e);
    if v.Commit? {
      DecideFits(s.db, o, e, s.clock, v);
      SameOrder(s.db, o, v.trip);
      SaveThenRead(s.db, v.trip, v.closed, p);
    }
  }

  lemma StepTripEvolves(s: State, e: Event, p: Id) returns (closed: set<Id>)
    requires Inv(s) && Enabled(s, e) && p in s.db.orders
    ensures p in Step(s, e).db.orders && Evolves(TripOf(s.db, p), TripOf(Step(s, e).db, p), closed)
  {
    hide Inv, Precheck, Target, Decide, Deciding, Evolves, Sound, Crewed, Formed, Recorded, FreshIn, NewUnbooked, Grows;
    closed := {};
    StaysEvolves(TripOf(s.db, p));
    StepKeepsOrders(s, e);
    if Precheck(e.command, e.now).None? {
      if e.command.CreateOrder? || e.command.FinishRelease? {
        assert TripOf(Step(s, e).db, p) == TripOf(s.db, p);
      } else {
        var target := Target(s.db, e.command);
        if target.Some? {
          OtherOrdersStay(s, e, target.value, p);
          var v := Decide(s.db, target.value, e);
          if v.Commit? && p == target.value { closed := v.closed; }
        }
      }
    }
  }

  lemma StepKeepsOrders(s: State, e: Event)
    requires Inv(s) && Enabled(s, e)
    ensures s.db.orders.Keys <= Step(s, e).db.orders.Keys
  {
    hide Inv, Enabled, Execute;
    StepGrows(s, e);
  }

  lemma SoundOf(s: State, o: Id)
    requires Inv(s) && o in s.db.orders
    ensures Sound(TripOf(s.db, o), s.clock)
  {
    hide Sound, Crewed, Formed, Recorded, Referential, NoDoubleBooking, ReleasesKept;
  }

  // ---- Finished is finished -----------------------------------------------------------------------------

  // The log decides: nothing follows a terminal status.
  lemma LogRests(history: seq<StatusChange>, status: OrderStatus, longer: seq<StatusChange>, after: OrderStatus)
    requires Logged(history, status) && Logged(longer, after) && history <= longer && Terminal(status)
    ensures longer == history && after == status
  {
    var k, l := |history| - 1, |history|;
    assert k >= 0 && longer[k] == history[k];
    assert !(l < |longer| && CanTransition(status, longer[l].to));
  }

  lemma NothingOpenWhenTerminal(t: Trip)
    requires Crewed(t) && Terminal(t.order.status)
    ensures forall a :: a in t.assignments ==> !Open(t.assignments[a])
  {
  }

  lemma TerminalRests(t: Trip, u: Trip, closed: set<Id>)
    requires Crewed(t) && Crewed(u) && Terminal(t.order.status) && u.order.status == t.order.status && Evolves(t, u, closed)
    ensures u.assignments == t.assignments
  {
    hide Crewed;
    NothingOpenWhenTerminal(t);
    NothingOpenWhenTerminal(u);
  }

  lemma DeliveredIncidentsRest(t: Trip, u: Trip, closed: set<Id>)
    requires Proven(t) && Proven(u) && t.order.status == OrderStatus.Completed == u.order.status && Evolves(t, u, closed)
    ensures u.incidents == t.incidents
  {
  }

  // Everything about an order but its invitations.
  function Facts(t: Trip): Trip { t.(handovers := map[]) }

  lemma DeliveredRests(t: Trip, u: Trip, closed: set<Id>, clock: Time, now: Time)
    requires Sound(t, clock) && Sound(u, now) && t.order.status == OrderStatus.Completed && Evolves(t, u, closed)
    ensures Facts(u) == Facts(t)
  {
    hide Crewed, Stamped, Proven, Owned, StartedBy, OneInvitation, Logged, Journalled, Accounted, Custody;
    LogRests(t.history, t.order.status, u.history, u.order.status);
    TerminalRests(t, u, closed);
    DeliveredIncidentsRest(t, u, closed);
  }

  lemma {:induction false} CompletedForever(s: State, events: seq<Event>, o: Id)
    requires Inv(s) && Legal(s, events)
    requires o in s.db.orders && s.db.orders[o].status == OrderStatus.Completed
    ensures o in Run(s, events).db.orders && Facts(TripOf(Run(s, events).db, o)) == Facts(TripOf(s.db, o))
    decreases |events|
  {
    hide Inv, Sound, Crewed, Formed, Recorded, Evolves, Step, Enabled;
    if events != [] {
      var next := Step(s, events[0]);
      StepKeeps(s, events[0]);
      var closed := StepTripEvolves(s, events[0], o);
      SoundOf(s, o);
      SoundOf(next, o);
      DeliveredRests(TripOf(s.db, o), TripOf(next.db, o), closed, s.clock, next.clock);
      CompletedForever(next, events[1..], o);
    }
  }

  // A cancelled order keeps its row, its log and its assignments; cargo may still be handed back.
  lemma {:induction false} CancelledForever(s: State, events: seq<Event>, o: Id)
    requires Inv(s) && Legal(s, events)
    requires o in s.db.orders && s.db.orders[o].status == Cancelled
    ensures o in Run(s, events).db.orders
            && var t, u := TripOf(s.db, o), TripOf(Run(s, events).db, o);
               u.order == t.order && u.history == t.history && u.assignments == t.assignments
    decreases |events|
  {
    hide Inv, Crewed, Formed, Journalled, Accounted, Custody, Logged, Step, Enabled, TripOf;
    if events != [] {
      var next := Step(s, events[0]);
      StepKeeps(s, events[0]);
      var closed := StepTripEvolves(s, events[0], o);
      SoundOf(s, o);
      SoundOf(next, o);
      var t, u := TripOf(s.db, o), TripOf(next.db, o);
      SameRow(s.db, o);
      SameRow(next.db, o);
      LogRests(t.history, t.order.status, u.history, u.order.status);
      TerminalRests(t, u, closed);
      CancelledForever(next, events[1..], o);
    }
  }

  lemma SameRow(db: Tables, o: Id)
    requires o in db.orders
    ensures TripOf(db, o).order == db.orders[o]
  {
  }

  // ---- A delivered order carries its proof ----------------------------------------------------------------

  ghost predicate DeliveryProven(t: Trip) {
    exists a :: a in t.assignments && t.assignments[a].status == AssignmentStatus.Completed
      && t.order.driver == Some(t.assignments[a].driver)
      && !HasOpenIncident(t)
      && (t.order.origin.Some? ==> exists b :: Effective(t, b))
      && (t.order.destination.Some? ==> Performed(t, Unload, Some(a)))
      && (t.order.policy == 1 ==> t.receipt.Some?)
      && (t.receipt.Some? ==> t.receipt.value.assignment == a)
  }

  lemma CompletedIsProven(t: Trip)
    requires Crewed(t) && Stamped(t) && Proven(t) && LoadedToStart(t) && t.order.status == OrderStatus.Completed
    ensures DeliveryProven(t)
  {
    var a :| a in t.assignments && t.assignments[a].status == AssignmentStatus.Completed && t.order.driver == Some(t.assignments[a].driver);
    if t.receipt.Some? { assert Delivered(t.assignments[t.receipt.value.assignment]); }
  }

  // A receipt always names the assignment that carries or carried the cargo in, so the stale
  // receipt branch of completion never fires.
  lemma ReceiptNamesCarrier(t: Trip, clock: Time, a: Id)
    requires Sound(t, clock) && t.receipt.Some? && a in t.assignments && t.assignments[a].status == Active
    ensures t.receipt.value.assignment == a
  {
    hide Recorded, Resubmitted, Strict, Stamped, Owned, StartedBy, OneInvitation, Held;
    assert Open(t.assignments[a]);
  }

  lemma CompletedOrdersProven(s: State, events: seq<Event>, o: Id)
    requires Inv(s) && Legal(s, events) && o in Run(s, events).db.orders
    requires Run(s, events).db.orders[o].status == OrderStatus.Completed
    ensures DeliveryProven(TripOf(Run(s, events).db, o))
  {
    hide Inv, Crewed, Stamped, Proven, Owned, LoadedToStart, Filed, LoadsHeld, UnloadsHeld, Accounted, Custody, Logged, StartedBy,
         OneInvitation, DeliveryProven, Run, Legal;
    RunKeeps(s, events);
    SoundOf(Run(s, events), o);
    CompletedIsProven(TripOf(Run(s, events).db, o));
  }

  // ---- Every change of status is in the log ---------------------------------------------------------------

  lemma LogReplays(s: State, events: seq<Event>, o: Id)
    requires Inv(s) && Legal(s, events) && o in Run(s, events).db.orders
    ensures Logged(LogOf(Run(s, events).db, o), Run(s, events).db.orders[o].status)
    ensures LogOf(s.db, o) <= LogOf(Run(s, events).db, o)
  {
    hide Inv, Crewed, Formed, Journalled, Accounted, Custody, Logged, Run, Legal, AssignmentsGrow, OperationsGrow, IncidentsGrow;
    RunKeeps(s, events);
    RunGrows(s, events);
    SoundOf(Run(s, events), o);
  }

  // ---- Release records ----------------------------------------------------------------------------------------

  function Closed(db: Tables): set<Id> { set a | a in db.assignments && !Open(db.assignments[a]) }

  lemma ReleasesConserved(s: State, events: seq<Event>)
    requires Inv(s) && Legal(s, events)
    ensures var end := Run(s, events);
            && Closed(end.db) == end.db.queue.Keys + end.done && end.db.queue.Keys !! end.done
            && Closed(s.db) <= Closed(end.db) && s.done <= end.done
            && (forall a :: a in end.db.queue ==> end.db.queue[a] == JobOf(end.db.assignments[a]))
  {
    hide AllSound, NoDoubleBooking, Referential, Run, Legal, OperationsGrow, IncidentsGrow;
    RunKeeps(s, events);
    RunGrows(s, events);
    DoneGrows(s, events);
  }

  lemma {:induction false} DoneGrows(s: State, events: seq<Event>)
    requires Legal(s, events)
    ensures s.done <= Run(s, events).done
    decreases |events|
  {
    hide Execute, Enabled;
    if events != [] { DoneGrows(Step(s, events[0]), events[1..]); }
  }

  // A step queues exactly the assignments it closes.
  lemma StepQueuesWhatItCloses(s: State, e: Event)
    requires Inv(s) && Enabled(s, e)
    ensures Step(s, e).db.queue.Keys - s.db.queue.Keys == Closed(Step(s, e).db) - Closed(s.db)
  {
    hide AllSound, NoDoubleBooking, Referential, Execute, OperationsGrow, IncidentsGrow;
    StepKeeps(s, e);
    StepGrows(s, e);
  }
}
