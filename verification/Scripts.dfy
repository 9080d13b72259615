// Runs written out: a database that holds one order, taken from one trip to the next.
module Scripts {
  import opened Model
  import opened Trips
  import opened Database
  import opened Core
  import opened CoreSafety
  import opened Guarantees

  // The database of order 0 and nothing else.
  function Alone(t: Trip, queue: map<Id, ReleaseJob>, clock: Time): State {
    State(Tables(map[0 := t.order], t.assignments, t.operations, t.incidents,
                 if t.receipt.Some? then map[0 := t.receipt.value] else map[], t.handovers,
                 if t.history == [] then map[] else map[0 := t.history], queue), clock, {})
  }

  predicate OfOrder0(t: Trip) {
    && t.order.id == 0
    && (forall a :: a in t.assignments ==> t.assignments[a].order == 0) && (forall k :: k in t.operations ==> k.order == 0)
    && (forall i :: i in t.incidents ==> t.incidents[i].order == 0) && (forall h :: h in t.handovers ==> t.handovers[h].order == 0)
  }

  lemma ReadAlone(t: Trip, queue: map<Id, ReleaseJob>, clock: Time)
    requires OfOrder0(t)
    ensures TripOf(Alone(t, queue, clock).db, 0) == t
  {
  }

  // No row is lost from one trip to the other.
  predicate Extends(t: Trip, u: Trip) {
    && t.assignments.Keys <= u.assignments.Keys && t.operations.Keys <= u.operations.Keys
    && t.incidents.Keys <= u.incidents.Keys && t.handovers.Keys <= u.handovers.Keys
    && (t.receipt.Some? ==> u.receipt.Some?) && t.history <= u.history && u.order.id == 0
  }

  lemma SaveAlone(t: Trip, queue: map<Id, ReleaseJob>, clock: Time, u: Trip, closed: set<Id>, now: Time)
    requires Extends(t, u)
    ensures Save(Alone(t, queue, clock).db, u, closed) == Alone(u, Enqueue(queue, u.assignments, closed), now).db
  {
    hide Enqueue;
    var db := Alone(t, queue, clock).db;
    assert db.orders[0 := u.order] == map[0 := u.order];
    assert t.assignments + u.assignments == u.assignments && t.operations + u.operations == u.operations;
    assert t.incidents + u.incidents == u.incidents && t.handovers + u.handovers == u.handovers;
    assert u.receipt.Some? ==> db.receipts[0 := u.receipt.value] == map[0 := u.receipt.value];
    assert db.history[0 := u.history] == map[0 := u.history];
  }

  lemma StepAlone(t: Trip, queue: map<Id, ReleaseJob>, clock: Time, e: Event, u: Trip, closed: set<Id>)
    requires Extends(t, u)
    requires Precheck(e.command, e.now).None? && Target(Alone(t, queue, clock).db, e.command) == Some(0)
    requires !e.command.FinishRelease? && !e.command.CreateOrder?
    requires Decide(Alone(t, queue, clock).db, 0, e) == Done(u, closed)
    ensures Step(Alone(t, queue, clock), e) == Alone(u, Enqueue(queue, u.assignments, closed), e.now)
  {
    hide Decide, Precheck, Target, Enqueue, Save, Extends;
    SaveAlone(t, queue, clock, u, closed, e.now);
    SameDone(t, queue, clock);
  }

  lemma SameDone(t: Trip, queue: map<Id, ReleaseJob>, clock: Time)
    ensures Alone(t, queue, clock).done == {} && Alone(t, queue, clock).clock == clock
  {
  }

  lemma NothingClosed(queue: map<Id, ReleaseJob>, assignments: map<Id, Assignment>)
    ensures Enqueue(queue, assignments, {}) == queue
  {
  }

  // ---- One event after the other ------------------------------------------------------------------

  lemma RunStep(s: State, e: Event, next: State, rest: seq<Event>)
    requires Enabled(s, e) && Step(s, e) == next && Legal(next, rest)
    ensures Legal(s, [e] + rest) && Run(s, [e] + rest) == Run(next, rest)
  {
    hide Enabled, Step;
    assert ([e] + rest)[1..] == rest;
  }

  lemma RunNothing(s: State)
    ensures Legal(s, []) && Run(s, []) == s
  {
  }
}
