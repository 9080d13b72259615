// Writing rows one by one and writing an order's rows together come to the same tables.
module RowWrites {
  import opened Model
  import opened Trips
  import opened Soundness
  import opened Database
  import opened Core
  import opened CoreSafety
  import opened Guarantees

  lemma MergePut<K, V>(whole: map<K, V>, part: map<K, V>, k: K, v: V)
    requires forall x :: x in part ==> x in whole && whole[x] == part[x]
    ensures whole + part == whole && whole + part[k := v] == whole[k := v]
  {
  }

  function Queued(queue: map<Id, ReleaseJob>, a: Id, row: Assignment): map<Id, ReleaseJob> {
    if a in queue then queue else queue[a := JobOf(row)]
  }

  lemma QueueNothing(queue: map<Id, ReleaseJob>, assignments: map<Id, Assignment>)
    ensures Enqueue(queue, assignments, {}) == queue
  {
  }

  lemma QueueOne(queue: map<Id, ReleaseJob>, assignments: map<Id, Assignment>, a: Id)
    requires a in assignments
    ensures Enqueue(queue, assignments, {a}) == Queued(queue, a, assignments[a])
  {
  }

  // The rows of an order, written back as they were read.
  lemma RowsStay(db: Tables, o: Id)
    ensures db.assignments + AssignmentsOf(db.assignments, o) == db.assignments
    ensures db.operations + OperationsOf(db.operations, o) == db.operations
    ensures db.incidents + IncidentsOf(db.incidents, o) == db.incidents
    ensures db.handovers + HandoversOf(db.handovers, o) == db.handovers
  {
  }

  function Logs(db: Tables, o: Id, log: seq<StatusChange>): map<Id, seq<StatusChange>> {
    if log == LogOf(db, o) then db.history else db.history[o := log]
  }

  // The order row and its log.
  lemma SaveOrder(db: Tables, o: Id, u: Trip)
    requires o in db.orders && u.order.id == o
    requires u == TripOf(db, o).(order := u.order, history := u.history)
    ensures Save(db, u, {}) == db.(orders := db.orders[o := u.order], history := Logs(db, o, u.history))
  {
    RowsStay(db, o);
    QueueNothing(db.queue, u.assignments);
    if o in db.receipts { assert db.receipts[o := db.receipts[o]] == db.receipts; }
  }

  // The order row, its log, one assignment and perhaps its release job.
  lemma SaveMove(db: Tables, o: Id, u: Trip, closed: set<Id>, a: Id, row: Assignment)
    requires o in db.orders && u.order.id == o && a in db.assignments && db.assignments[a].order == o
    requires u == TripOf(db, o).(order := u.order, assignments := AssignmentsOf(db.assignments, o)[a := row], history := u.history)
    requires closed == {} || closed == {a}
    ensures Save(db, u, closed) == db.(
              orders := db.orders[o := u.order],
              assignments := db.assignments[a := row],
              history := Logs(db, o, u.history),
              queue := if closed == {} then db.queue else Queued(db.queue, a, row))
  {
    RowsStay(db, o);
    MergePut(db.assignments, AssignmentsOf(db.assignments, o), a, row);
    QueueNothing(db.queue, u.assignments);
    if closed == {a} { QueueOne(db.queue, u.assignments, a); }
    if o in db.receipts { assert db.receipts[o := db.receipts[o]] == db.receipts; }
  }

  // An order's rows as a trip shows them.
  lemma ReadOrder(db: Tables, o: Id)
    requires Constrained(db) && o in db.orders
    ensures var t := TripOf(db, o);
            && t.order == db.orders[o] && t.order.id == o && t.history == LogOf(db, o)
            && t.assignments == AssignmentsOf(db.assignments, o) && t.operations == OperationsOf(db.operations, o)
            && t.incidents == IncidentsOf(db.incidents, o) && t.handovers == HandoversOf(db.handovers, o)
            && t.receipt == (if o in db.receipts then Some(db.receipts[o]) else None)
  {
  }

  lemma ReadAssignment(db: Tables, a: Id)
    requires Constrained(db) && a in db.assignments
    ensures var o := db.assignments[a].order;
            && o in db.orders && db.orders[o].id == o && TripOf(db, o).order == db.orders[o] && TripOf(db, o).history == LogOf(db, o)
            && a in TripOf(db, o).assignments && TripOf(db, o).assignments[a] == db.assignments[a]
            && TripOf(db, o).assignments == AssignmentsOf(db.assignments, o)
  {
  }

  // A new assignment.
  lemma SaveInsert(db: Tables, o: Id, u: Trip, id: Id, row: Assignment)
    requires o in db.orders && db.orders[o].id == o
    requires u == TripOf(db, o).(assignments := AssignmentsOf(db.assignments, o)[id := row])
    ensures Save(db, u, {}) == db.(assignments := db.assignments[id := row])
  {
    assert db.orders[o := db.orders[o]] == db.orders;
    RowsStay(db, o);
    MergePut(db.assignments, AssignmentsOf(db.assignments, o), id, row);
    QueueNothing(db.queue, u.assignments);
    if o in db.receipts { assert db.receipts[o := db.receipts[o]] == db.receipts; }
  }

  // One assignment released and another put in its place, with the order row and its log.
  lemma SaveReplacement(db: Tables, o: Id, u: Trip, a: Id, row: Assignment, id: Id, next: Assignment)
    requires o in db.orders && u.order.id == o && a != id
    requires u == TripOf(db, o).(order := u.order, assignments := AssignmentsOf(db.assignments, o)[a := row][id := next],
                                 handovers := u.handovers, history := u.history)
    ensures Save(db, u, {a}) == db.(
              orders := db.orders[o := u.order],
              assignments := db.assignments[a := row][id := next],
              handovers := db.handovers + u.handovers,
              history := Logs(db, o, u.history),
              queue := Queued(db.queue, a, row))
  {
    RowsStay(db, o);
    assert db.assignments + u.assignments == db.assignments[a := row][id := next];
    QueueOne(db.queue, u.assignments, a);
    if o in db.receipts { assert db.receipts[o := db.receipts[o]] == db.receipts; }
  }

  lemma PutIncident(db: Tables, o: Id, incidents: map<Id, Incident>, i: Id, row: Incident)
    ensures incidents == IncidentsOf(db.incidents, o) ==> db.incidents + incidents == db.incidents
    ensures incidents == IncidentsOf(db.incidents, o)[i := row] ==> db.incidents + incidents == db.incidents[i := row]
  {
    MergePut(db.incidents, IncidentsOf(db.incidents, o), i, row);
  }

  lemma PutHandover(db: Tables, o: Id, h: Id, item: Handover)
    ensures db.handovers + HandoversOf(db.handovers, o)[h := item] == db.handovers[h := item]
  {
    MergePut(db.handovers, HandoversOf(db.handovers, o), h, item);
  }

  // A journal row and the incidents it leads to.
  lemma SaveEntry(db: Tables, o: Id, u: Trip, k: OpKey, op: Operation)
    requires o in db.orders && db.orders[o].id == o
    requires u == TripOf(db, o).(operations := OperationsOf(db.operations, o)[k := op], incidents := u.incidents)
    ensures Save(db, u, {}) == db.(operations := db.operations[k := op], incidents := db.incidents + u.incidents)
  {
    assert db.orders[o := db.orders[o]] == db.orders;
    RowsStay(db, o);
    MergePut(db.operations, OperationsOf(db.operations, o), k, op);
    QueueNothing(db.queue, u.assignments);
    if o in db.receipts { assert db.receipts[o := db.receipts[o]] == db.receipts; }
  }

  lemma SaveUndo(db: Tables, o: Id, u: Trip, k: OpKey, op: Operation, a: Id, row: Assignment)
    requires o in db.orders && u.order.id == o && a in db.assignments && db.assignments[a].order == o
    requires u == TripOf(db, o).(order := u.order, operations := OperationsOf(db.operations, o)[k := op], incidents := u.incidents,
                                 assignments := AssignmentsOf(db.assignments, o)[a := row], history := u.history)
    ensures Save(db, u, {a}) == db.(
              orders := db.orders[o := u.order], operations := db.operations[k := op], incidents := db.incidents + u.incidents,
              assignments := db.assignments[a := row], history := Logs(db, o, u.history), queue := Queued(db.queue, a, row))
  {
    RowsStay(db, o);
    MergePut(db.operations, OperationsOf(db.operations, o), k, op);
    MergePut(db.assignments, AssignmentsOf(db.assignments, o), a, row);
    QueueOne(db.queue, u.assignments, a);
    if o in db.receipts { assert db.receipts[o := db.receipts[o]] == db.receipts; }
  }

  // The receipt and the incidents it leads to.
  lemma SaveReceipt(db: Tables, o: Id, u: Trip)
    requires o in db.orders && db.orders[o].id == o
    requires u == TripOf(db, o).(receipt := u.receipt, incidents := u.incidents) && u.receipt.Some?
    ensures Save(db, u, {}) == db.(receipts := db.receipts[o := u.receipt.value], incidents := db.incidents + u.incidents)
  {
    assert db.orders[o := db.orders[o]] == db.orders;
    RowsStay(db, o);
    QueueNothing(db.queue, u.assignments);
  }

  lemma SaveRecords(db: Tables, o: Id, u: Trip)
    requires o in db.orders && db.orders[o].id == o
    requires u == TripOf(db, o).(incidents := u.incidents, handovers := u.handovers)
    ensures Save(db, u, {}) == db.(incidents := db.incidents + u.incidents, handovers := db.handovers + u.handovers)
  {
    assert db.orders[o := db.orders[o]] == db.orders;
    RowsStay(db, o);
    QueueNothing(db.queue, u.assignments);
    if o in db.receipts { assert db.receipts[o := db.receipts[o]] == db.receipts; }
  }

  // ---- Queries over the tables and over one order's rows ------------------------------------------

  // requireNoOpenIncidents
  predicate IncidentIsOpen(incidents: map<Id, Incident>, o: Id) {
    exists i :: i in incidents && incidents[i].order == o && incidents[i].open
  }

  lemma OpenIncidentRead(db: Tables, o: Id)
    requires o in db.orders
    ensures IncidentIsOpen(db.incidents, o) <==> HasOpenIncident(TripOf(db, o))
  {
    var t := TripOf(db, o);
    if i :| i in db.incidents && db.incidents[i].order == o && db.incidents[i].open { assert i in t.incidents && t.incidents[i].open; }
    if i :| i in t.incidents && t.incidents[i].open { assert i in db.incidents; }
  }

  // The unique index on open assignments of an order.
  predicate HasOpenAssignment(assignments: map<Id, Assignment>, o: Id) {
    exists a :: a in assignments && assignments[a].order == o && Open(assignments[a])
  }

  lemma OpenAssignmentRead(whole: map<Id, Assignment>, part: map<Id, Assignment>, o: Id)
    requires part == AssignmentsOf(whole, o)
    ensures HasOpenAssignment(whole, o) <==> exists a :: a in part && Open(part[a])
  {
    if a :| a in whole && whole[a].order == o && Open(whole[a]) { assert a in part && Open(part[a]); }
    if a :| a in part && Open(part[a]) { assert a in whole && whole[a].order == o; }
  }

  lemma JournalRead(db: Tables, o: Id, kind: OperationKind, a: Option<Id>)
    requires o in db.orders && db.orders[o].id == o
    ensures Performed(TripOf(db, o), kind, a) <==> OpKey(o, kind, a) in db.operations
    ensures Performed(TripOf(db, o), kind, a) ==>
              TripOf(db, o).operations[KeyOf(TripOf(db, o), kind, a)] == db.operations[OpKey(o, kind, a)]
    ensures a.Some? ==> (Effective(TripOf(db, o), a.value) <==> EffectiveIn(db.operations, o, a.value))
  {
  }

  // Two rows of one order have different identifiers.
  ghost predicate DistinctIdsIn(journal: Journal) {
    forall k, l :: k in journal && l in journal && k != l && k.order == l.order ==> journal[k].id != journal[l].id
  }

  predicate Rivals(a: Assignment, b: Assignment) { a.order == b.order && Open(a) && Open(b) }

  // What the schema enforces: foreign keys, one open assignment per order, primary keys of the journal.
  ghost predicate Constrained(db: Tables) {
    && Referential(db)
    && (forall a, b :: a in db.assignments && b in db.assignments && Rivals(db.assignments[a], db.assignments[b]) ==> a == b)
    && DistinctIdsIn(db.operations)
    && (forall k :: k in db.operations && k.assignment.Some? && k.assignment.value in db.assignments ==>
          db.assignments[k.assignment.value].order == k.order)
    && (forall i :: i in db.incidents && db.incidents[i].assignment.Some? && db.incidents[i].assignment.value in db.assignments ==>
          db.assignments[db.incidents[i].assignment.value].order == db.incidents[i].order)
  }

  lemma InvariantConstrains(s: State)
    requires Inv(s)
    ensures Constrained(s.db)
  {
    hide Inv, Sound, Crewed, Formed, Recorded;
    HasReferences(s);
    forall a, b | a in s.db.assignments && b in s.db.assignments && s.db.assignments[a].order == s.db.assignments[b].order
                  && Open(s.db.assignments[a]) && Open(s.db.assignments[b])
      ensures a == b
    {
      var o := s.db.assignments[a].order;
      SoundOf(s, o);
      OneOpenOf(TripOf(s.db, o), s.clock);
      assert a in TripOf(s.db, o).assignments && b in TripOf(s.db, o).assignments;
    }
    forall k | k in s.db.operations && k.assignment.Some? ensures k.assignment.value in s.db.assignments
                                                                  && s.db.assignments[k.assignment.value].order == k.order
    {
      SoundOf(s, k.order);
      OwnNames(s.db, k.order, s.clock);
      assert k in TripOf(s.db, k.order).operations;
    }
    forall i | i in s.db.incidents && s.db.incidents[i].assignment.Some?
      ensures s.db.incidents[i].assignment.value in s.db.assignments
              && s.db.assignments[s.db.incidents[i].assignment.value].order == s.db.incidents[i].order
    {
      SoundOf(s, s.db.incidents[i].order);
      OwnNames(s.db, s.db.incidents[i].order, s.clock);
      assert i in TripOf(s.db, s.db.incidents[i].order).incidents;
    }
    forall k, l | k in s.db.operations && l in s.db.operations && k.order == l.order && s.db.operations[k].id == s.db.operations[l].id
      ensures k == l
    {
      SoundOf(s, k.order);
      DistinctIds(s.db, k, l, s.clock);
    }
  }

  lemma OwnNames(db: Tables, o: Id, clock: Time)
    requires o in db.orders && Sound(TripOf(db, o), clock)
    ensures Owned(TripOf(db, o))
  {
    hide Crewed, Recorded, Stamped, Proven, StartedBy, OneInvitation, Owned;
  }

  lemma HasReferences(s: State)
    requires Inv(s)
    ensures Referential(s.db)
  {
    hide AllSound, NoDoubleBooking, ReleasesKept;
  }

  lemma DistinctIds(db: Tables, k: OpKey, l: OpKey, clock: Time)
    requires k in db.operations && l in db.operations && k.order == l.order && db.operations[k].id == db.operations[l].id
    requires k.order in db.orders && Sound(TripOf(db, k.order), clock)
    ensures k == l
  {
    hide Crewed, Formed, Logged, Accounted, Custody, LoadsHeld, UnloadsHeld, LoadedToStart;
    assert k in TripOf(db, k.order).operations && l in TripOf(db, k.order).operations;
  }

  lemma ServerIs(db: Tables, o: Id, a: Id)
    requires Constrained(db) && o in db.orders && a in db.assignments && db.assignments[a].order == o && Serving(db.assignments[a])
    ensures Server(TripOf(db, o)) == Some(a)
  {
    assert a in TripOf(db, o).assignments;
  }

  lemma NoServer(db: Tables, o: Id)
    requires o in db.orders && forall a :: a in db.assignments && db.assignments[a].order == o ==> !Serving(db.assignments[a])
    ensures Server(TripOf(db, o)).None?
  {
  }

  lemma CarrierIs(db: Tables, o: Id, a: Id)
    requires Constrained(db) && o in db.orders && a in db.assignments && db.assignments[a].order == o && db.assignments[a].status == Active
    ensures Carrier(TripOf(db, o)) == Some(a)
  {
    assert a in TripOf(db, o).assignments;
  }

  lemma NoCarrier(db: Tables, o: Id)
    requires o in db.orders && forall a :: a in db.assignments && db.assignments[a].order == o ==> db.assignments[a].status != Active
    ensures Carrier(TripOf(db, o)).None?
  {
  }

  lemma Few<T>(s: set<T>)
    ensures |s| > 1 <==> exists a, b :: a in s && b in s && a != b
  {
    if |s| > 1 {
      var a :| a in s;
      assert |s - {a}| == |s| - 1;
      var b :| b in s - {a};
    }
    if a, b :| a in s && b in s && a != b { assert {a, b} <= s; Smaller({a, b}, s); }
  }

  lemma {:induction false} Smaller<T>(small: set<T>, large: set<T>)
    requires small <= large
    ensures |small| <= |large|
  {
    if small != {} {
      var x :| x in small;
      Smaller(small - {x}, large - {x});
    }
  }

  // ---- Cancelling, by the number of assignments still held -----------------------------------------

  lemma CancelMany(t: Trip, who: Actor, now: Time, reason: Option<StatusReason>, fleet: Registry)
    requires |Cancellable(t)| > 1
    ensures Cancel(t, who, now, reason, fleet) == Refuse(AssignmentStale)
  {
    Few(Cancellable(t));
  }

  lemma HeldRead(db: Tables, o: Id, held: set<Id>)
    requires o in db.orders
    requires held == set a | a in db.assignments && db.assignments[a].order == o
                             && (db.assignments[a].status == Pending || db.assignments[a].status == Accepted)
    ensures held == Cancellable(TripOf(db, o))
    ensures forall a :: a in held ==> a in TripOf(db, o).assignments && TripOf(db, o).assignments[a] == db.assignments[a]
  {
  }

  function Seats(seat: Option<Id>): set<Id> { if seat.Some? then {seat.value} else {} }

  function Vacated(t: Trip, seat: Option<Id>, now: Time): (u: Trip)
    requires seat.Some? ==> seat.value in t.assignments
    ensures u.order == t.order && u.history == t.history
  {
    if seat.None? then t else Put(t, seat.value, ReleasedRow(t.assignments[seat.value], OrderCancelled, now))
  }

  lemma CancelAt(t: Trip, who: Actor, now: Time, reason: Option<StatusReason>, fleet: Registry, seat: Option<Id>)
    requires Cancellable(t) == Seats(seat)
    ensures seat.Some? ==> seat.value in t.assignments
    ensures Cancel(t, who, now, reason, fleet) ==
      if seat.Some? && t.assignments[seat.value].driver !in fleet.drivers then Refuse(DriverNotEligible)
      else if seat.Some? && t.assignments[seat.value].vehicle !in fleet.vehicles then Refuse(VehicleNotOperational)
      else if who.role == Manager && !Runs(who, t.order.origin) then Refuse(Forbidden)
      else if who.role == Client && (t.order.createdBy != Some(who.user) || (t.order.status != Draft && t.order.status != Ready)) then
        Refuse(Forbidden)
      else if seat.Some? && Effective(t, seat.value) then Refuse(WarehouseOperationConflict)
      else if !CanTransition(t.order.status, Cancelled) then Refuse(InvalidOrderTransition)
      else Done(MoveTo(Vacated(t, seat, now), t.order.(status := Cancelled, cancelledAt := Some(now)), who.user, reason, now), Seats(seat))
  {
    hide Effective, EffectiveIn, CanTransition, Runs, Performed;
    if seat.Some? { assert seat.value in Cancellable(t); }
    assert Vacated(t, seat, now).assignments == map b | b in t.assignments ::
      if b in Cancellable(t) then ReleasedRow(t.assignments[b], OrderCancelled, now) else t.assignments[b];
  }

  // The cancelled order's row and log, and the assignment it released, if any.
  lemma SaveCancelled(db: Tables, o: Id, u: Trip, seat: Option<Id>, now: Time)
    requires o in db.orders && u.order.id == o
    requires seat.Some? ==> seat.value in db.assignments && db.assignments[seat.value].order == o
    requires u == Vacated(TripOf(db, o), seat, now).(order := u.order, history := u.history)
    ensures Save(db, u, Seats(seat)) == db.(
              orders := db.orders[o := u.order],
              assignments := if seat.None? then db.assignments
                             else db.assignments[seat.value := ReleasedRow(db.assignments[seat.value], OrderCancelled, now)],
              history := Logs(db, o, u.history),
              queue := if seat.None? then db.queue
                       else Queued(db.queue, seat.value, ReleasedRow(db.assignments[seat.value], OrderCancelled, now)))
  {
    if seat.Some? {
      SaveMove(db, o, u, {seat.value}, seat.value, ReleasedRow(db.assignments[seat.value], OrderCancelled, now));
    } else {
      SaveOrder(db, o, u);
    }
  }

  // ---- Making an offer ---------------------------------------------------------------------------

  lemma AssignmentsPut(whole: map<Id, Assignment>, o: Id, a: Id, row: Assignment)
    requires a in whole && whole[a].order == o && row.order == o
    ensures AssignmentsOf(whole[a := row], o) == AssignmentsOf(whole, o)[a := row]
  {
  }

  lemma BlockedRead(whole: map<Id, Assignment>, freed: Trip, o: Id, id: Id, taken: bool)
    requires freed.assignments == AssignmentsOf(whole, o) && (id in whole ==> taken)
    ensures Blocked(freed, id, taken) <==> taken || HasOpenAssignment(whole, o)
  {
    OpenAssignmentRead(whole, freed.assignments, o);
  }

  lemma TakenId(db: Tables, o: Id, id: Id, driver: Id, vehicle: Id, from: Time, to: Time)
    ensures id in db.assignments ==> AssignmentTaken(db, o, id, driver, vehicle, from, to)
  {
  }

  function Withdrawn(db: Tables, o: Id, p: Id, actor: Id, now: Time): Tables
    requires o in db.orders && p in db.assignments
  {
    var tx := db.(assignments := db.assignments[p := ReleasedRow(db.assignments[p], Reassigned, now)]);
    if db.orders[o].status != Assigned then tx
    else tx.(orders := db.orders[o := db.orders[o].(status := Ready, driver := None, assignedAt := None)],
             history := db.history[o := LogOf(db, o) + [StatusChange(Assigned, Ready, actor, Some(Because(Reassigned)), now)]])
  }

  // A new offer, with nothing released.
  lemma SaveOffer(db: Tables, o: Id, id: Id, row: Assignment, taken: bool)
    requires o in db.orders && db.orders[o].id == o && (id in db.assignments ==> taken)
    ensures Blocked(TripOf(db, o), id, taken) <==> taken || HasOpenAssignment(db.assignments, o)
    ensures !taken ==> Save(db, Put(TripOf(db, o), id, row), {}) == db.(assignments := db.assignments[id := row])
  {
    hide Save, Blocked;
    BlockedRead(db.assignments, TripOf(db, o), o, id, taken);
    if !taken { SaveInsert(db, o, Put(TripOf(db, o), id, row), id, row); }
  }

  lemma WithdrawnTrip(db: Tables, o: Id, p: Id, actor: Id, now: Time)
    requires o in db.orders && db.orders[o].id == o && p in db.assignments && db.assignments[p].order == o
    ensures p in TripOf(db, o).assignments
    ensures var freed := Withdraw(TripOf(db, o), p, actor, now);
            var released := ReleasedRow(db.assignments[p], Reassigned, now);
            && freed.order.id == o
            && freed == TripOf(db, o).(order := freed.order, history := freed.history,
                                       assignments := AssignmentsOf(db.assignments, o)[p := released])
            && freed.assignments == AssignmentsOf(db.assignments[p := released], o)
  {
    AssignmentsPut(db.assignments, o, p, ReleasedRow(db.assignments[p], Reassigned, now));
  }

  lemma WithdrawnRow(db: Tables, o: Id, p: Id, actor: Id, now: Time)
    requires o in db.orders && db.orders[o].id == o && p in db.assignments && db.assignments[p].order == o
    ensures p in TripOf(db, o).assignments
    ensures var freed := Withdraw(TripOf(db, o), p, actor, now);
            Withdrawn(db, o, p, actor, now) == db.(
              orders := db.orders[o := freed.order], history := Logs(db, o, freed.history),
              assignments := db.assignments[p := ReleasedRow(db.assignments[p], Reassigned, now)])
  {
    assert db.orders[o := db.orders[o]] == db.orders;
  }

  // The offer in place of another: the withdrawal, then the new row.
  lemma SaveOfferInstead(db: Tables, o: Id, p: Id, actor: Id, now: Time, id: Id, row: Assignment, taken: bool)
    requires o in db.orders && db.orders[o].id == o && (id in db.assignments ==> taken)
    requires p in db.assignments && db.assignments[p].order == o
    ensures p in TripOf(db, o).assignments
    ensures var tx := Withdrawn(db, o, p, actor, now);
            var freed := Withdraw(TripOf(db, o), p, actor, now);
            && (Blocked(freed, id, taken) <==> taken || HasOpenAssignment(tx.assignments, o))
            && (!taken ==> Save(db, Put(freed, id, row), {p})
                           == tx.(assignments := tx.assignments[id := row], queue := Queued(tx.queue, p, tx.assignments[p])))
  {
    hide Save, TripOf, Withdraw, Withdrawn, Blocked, HasOpenAssignment;
    WithdrawnTrip(db, o, p, actor, now);
    WithdrawnRow(db, o, p, actor, now);
    RowsStay(db, o);
    var t := TripOf(db, o);
    var freed := Withdraw(t, p, actor, now);
    var released := ReleasedRow(db.assignments[p], Reassigned, now);
    BlockedRead(db.assignments[p := released], freed, o, id, taken);
    if !taken {
      var u := Put(freed, id, row);
      TripHandovers(db, o);
      SaveReplacement(db, o, u, p, released, id, row);
    }
  }

  lemma TripHandovers(db: Tables, o: Id)
    requires o in db.orders
    ensures TripOf(db, o).handovers == HandoversOf(db.handovers, o)
  {
  }

  // ---- Counts and incidents --------------------------------------------------------------------------

  // Identifiers break ties, so only one load can be the latest.
  lemma LatestLoadFound(journal: Journal, o: Id, a: Id)
    requires IsLatestLoad(journal, o, a)
    requires DistinctIdsIn(journal)
    ensures LatestLoadIn(journal, o) == Some(journal[OpKey(o, Load, Some(a))].packages)
  {
    forall b | IsLatestLoad(journal, o, b) ensures b == a {
      assert journal[OpKey(o, Load, Some(a))].id == journal[OpKey(o, Load, Some(b))].id;
    }
  }

  // Looks through the journal for the latest load, the greatest identifier among those of one instant.
  method LatestLoadRow(journal: Journal, o: Id) returns (packages: Option<nat>)
    requires DistinctIdsIn(journal)
    ensures packages == LatestLoadIn(journal, o)
  {
    var best: Option<Id> := None;
    var rest := journal.Keys;
    while rest != {}
      invariant rest <= journal.Keys
      invariant best.None? ==> forall b :: EffectiveIn(journal, o, b) ==> OpKey(o, Load, Some(b)) in rest
      invariant best.Some? ==>
                  EffectiveIn(journal, o, best.value)
                  && forall b :: EffectiveIn(journal, o, b) && OpKey(o, Load, Some(b)) !in rest ==>
                       Later(journal[OpKey(o, Load, best)], journal[OpKey(o, Load, Some(b))])
      decreases |rest|
    {
      var k :| k in rest;
      if k.order == o && k.kind == Load && k.assignment.Some? && OpKey(o, UndoLoad, k.assignment) !in journal {
        if best.None? || !Later(journal[OpKey(o, Load, best)], journal[k]) { best := k.assignment; }
      }
      rest := rest - {k};
    }
    if best.Some? {
      assert IsLatestLoad(journal, o, best.value);
      LatestLoadFound(journal, o, best.value);
      packages := Some(journal[OpKey(o, Load, best)].packages);
    } else {
      packages := None;
    }
  }

  // Other orders' rows do not bear on an order's latest load.
  lemma LatestLoadRead(db: Tables, o: Id)
    requires Constrained(db) && o in db.orders
    ensures LatestLoadIn(db.operations, o) == LatestLoad(TripOf(db, o))
  {
    var mine := TripOf(db, o).operations;
    ReadOrder(db, o);
    forall a ensures EffectiveIn(db.operations, o, a) == EffectiveIn(mine, o, a) {}
    forall a ensures IsLatestLoad(db.operations, o, a) == IsLatestLoad(mine, o, a) {}
    if a :| IsLatestLoad(mine, o, a) {
      LatestLoadFound(db.operations, o, a);
      LatestLoadFound(mine, o, a);
    }
  }

  // recordWarehouseDiscrepancy: the count an operation is compared with.
  method ExpectedCount(db: Tables, o: Id, kind: OperationKind, assignment: Option<Id>) returns (expected: Option<nat>)
    requires Constrained(db) && o in db.orders
    ensures expected == ExpectedBy(TripOf(db, o), kind, assignment)
  {
    ReadOrder(db, o);
    match kind {
      case Receive => expected := db.orders[o].declared;
      case UndoLoad => expected := CountIn(db.operations, OpKey(o, Load, assignment));
      case Load => expected := CountIn(db.operations, OpKey(o, Receive, None));
      case ReturnToSender => expected := CountIn(db.operations, OpKey(o, Receive, None));
      case Unload =>
        LatestLoadRead(db, o);
        expected := LatestLoadRow(db.operations, o);
    }
  }

  // The quantity incident, if the count calls for one.
  function Noted(tx: Tables, o: Id, cause: Cause, expected: Option<nat>, actual: nat, assignment: Option<Id>,
                 warehouse: Option<Id>, incident: Id, actor: Id, now: Time): Tables {
    if expected.None? || expected.value == actual then tx
    else tx.(incidents := tx.incidents[incident := Incident(
      o, assignment, warehouse, cause, QuantityDiscrepancy, expected, Some(actual), true, Unresolved, actor, now, None, None)])
  }

  lemma EnteredRows(db: Tables, o: Id, k: OpKey, op: Operation, cause: Cause, expected: Option<nat>, warehouse: Option<Id>,
                    incident: Id, actor: Id, now: Time)
    requires o in db.orders && db.orders[o].id == o
    ensures var u := Entered(TripOf(db, o), k, op, cause, expected, warehouse, incident, actor, now);
            && u == TripOf(db, o).(operations := OperationsOf(db.operations, o)[k := op], incidents := u.incidents)
            && db.incidents + u.incidents
               == Noted(db, o, cause, expected, op.packages, k.assignment, warehouse, incident, actor, now).incidents
  {
    PutIncident(db, o, Entered(TripOf(db, o), k, op, cause, expected, warehouse, incident, actor, now).incidents, incident,
                Incident(o, k.assignment, warehouse, cause, QuantityDiscrepancy, expected, Some(op.packages), true, Unresolved,
                         actor, now, None, None));
  }

  // The journal row and its incident.
  lemma SaveEntered(db: Tables, o: Id, k: OpKey, op: Operation, cause: Cause, expected: Option<nat>, warehouse: Option<Id>,
                    incident: Id, actor: Id, now: Time)
    requires o in db.orders && db.orders[o].id == o
    ensures Save(db, Entered(TripOf(db, o), k, op, cause, expected, warehouse, incident, actor, now), {})
            == Noted(db.(operations := db.operations[k := op]), o, cause, expected, op.packages, k.assignment, warehouse, incident, actor, now)
  {
    hide Save, TripOf, Entered;
    EnteredRows(db, o, k, op, cause, expected, warehouse, incident, actor, now);
    SaveEntry(db, o, Entered(TripOf(db, o), k, op, cause, expected, warehouse, incident, actor, now), k, op);
  }

  // The same, and the assignment an undo_load gives up.
  lemma SaveUnloaded(db: Tables, o: Id, k: OpKey, op: Operation, cause: Cause, expected: Option<nat>, warehouse: Option<Id>,
                     incident: Id, actor: Id, now: Time, a: Id, order: Order, released: Assignment, log: seq<StatusChange>)
    requires o in db.orders && db.orders[o].id == o && a in db.assignments && db.assignments[a].order == o
    requires released == ReleasedRow(db.assignments[a], LoadingUndone, now)
    requires order == db.orders[o].(status := Ready, driver := None, assignedAt := None)
    requires log == LogOf(db, o) + [StatusChange(db.orders[o].status, Ready, actor, Some(Because(LoadingUndone)), now)]
    ensures a in Entered(TripOf(db, o), k, op, cause, expected, warehouse, incident, actor, now).assignments
    ensures Save(db, Unloaded(Entered(TripOf(db, o), k, op, cause, expected, warehouse, incident, actor, now), a, actor, now), {a})
            == Noted(db.(operations := db.operations[k := op]), o, cause, expected, op.packages, k.assignment, warehouse, incident, actor, now).(
                 orders := db.orders[o := order], assignments := db.assignments[a := released], history := db.history[o := log],
                 queue := Queued(db.queue, a, released))
  {
    hide Save, Entered;
    EnteredRows(db, o, k, op, cause, expected, warehouse, incident, actor, now);
    var u := Entered(TripOf(db, o), k, op, cause, expected, warehouse, incident, actor, now);
    SaveUndo(db, o, Unloaded(u, a, actor, now), k, op, a, released);
  }

  // An incident row, new or changed.
  lemma SaveIncident(db: Tables, o: Id, i: Id, row: Incident)
    requires o in db.orders && db.orders[o].id == o
    ensures Save(db, TripOf(db, o).(incidents := TripOf(db, o).incidents[i := row]), {}) == db.(incidents := db.incidents[i := row])
  {
    var u := TripOf(db, o).(incidents := TripOf(db, o).incidents[i := row]);
    RowsStay(db, o);
    PutIncident(db, o, u.incidents, i, row);
    hide Save;
    SaveRecords(db, o, u);
  }

  lemma ReadIncident(db: Tables, i: Id)
    requires Constrained(db) && i in db.incidents
    ensures var o := db.incidents[i].order;
            o in db.orders && db.orders[o].id == o && i in TripOf(db, o).incidents && TripOf(db, o).incidents[i] == db.incidents[i]
  {
  }

  // The join of an incident's released assignment with the one now serving its order.
  predicate ReplacedIn(assignments: map<Id, Assignment>, a: Id) {
    exists b :: a in assignments && b in assignments && assignments[b].order == assignments[a].order
      && assignments[a].status == Released && Serving(assignments[b]) && assignments[a].vehicle != assignments[b].vehicle
  }

  lemma ReplacedRead(db: Tables, o: Id, a: Id)
    requires o in db.orders && (a in db.assignments ==> db.assignments[a].order == o)
    ensures ReplacedIn(db.assignments, a) <==> VehicleReplaced(TripOf(db, o), a)
  {
    var t := TripOf(db, o);
    if b :| a in db.assignments && b in db.assignments && db.assignments[b].order == db.assignments[a].order
            && db.assignments[a].status == Released && Serving(db.assignments[b]) && db.assignments[a].vehicle != db.assignments[b].vehicle {
      assert b in t.assignments;
    }
    if VehicleReplaced(t, a) {
      var b :| b in t.assignments && Serving(t.assignments[b]) && t.assignments[b].vehicle != t.assignments[a].vehicle;
      assert b in db.assignments;
    }
  }

  // The join of an order's unloadings with its active assignment.
  predicate UnloadedIn(db: Tables, o: Id) {
    exists k :: k in db.operations && k.order == o && k.kind == Unload && k.assignment.Some?
      && k.assignment.value in db.assignments && db.assignments[k.assignment.value].status == Active
  }

  lemma UnloadedRead(db: Tables, o: Id)
    requires o in db.orders && db.orders[o].id == o
    requires forall k :: k in db.operations && k.order == o && k.assignment.Some? && k.assignment.value in db.assignments ==>
               db.assignments[k.assignment.value].order == o
    ensures UnloadedIn(db, o) <==> UnloadedByCarrier(TripOf(db, o))
  {
    var t := TripOf(db, o);
    if k :| k in db.operations && k.order == o && k.kind == Unload && k.assignment.Some?
            && k.assignment.value in db.assignments && db.assignments[k.assignment.value].status == Active {
      assert Performed(t, Unload, Some(k.assignment.value));
    }
    if UnloadedByCarrier(t) {
      var a :| a in t.assignments && t.assignments[a].status == Active && Performed(t, Unload, Some(a));
      assert OpKey(o, Unload, Some(a)) in db.operations;
    }
  }

  // The receipt and its incident.
  lemma SaveSigned(db: Tables, o: Id, receipt: Receipt, expected: Option<nat>, warehouse: Option<Id>, incident: Id, actor: Id, now: Time)
    requires o in db.orders && db.orders[o].id == o
    ensures var signed := TripOf(db, o).(receipt := Some(receipt));
            var u := WithDiscrepancy(signed, OfReceipt, expected, receipt.packages, Some(receipt.assignment), warehouse, incident, actor, now);
            Save(db, u, {}) == Noted(db.(receipts := db.receipts[o := receipt]), o, OfReceipt, expected, receipt.packages,
                                     Some(receipt.assignment), warehouse, incident, actor, now)
  {
    var signed := TripOf(db, o).(receipt := Some(receipt));
    var u := WithDiscrepancy(signed, OfReceipt, expected, receipt.packages, Some(receipt.assignment), warehouse, incident, actor, now);
    PutIncident(db, o, u.incidents, incident,
                Incident(o, Some(receipt.assignment), warehouse, OfReceipt, QuantityDiscrepancy, expected, Some(receipt.packages), true,
                         Unresolved, actor, now, None, None));
    SaveReceipt(db, o, u);
  }

  lemma FreshIncident(db: Tables, o: Id, incident: Id)
    requires o in db.orders
    ensures incident !in db.incidents ==> incident !in TripOf(db, o).incidents
  {
  }

  // ---- Handovers -----------------------------------------------------------------------------------------

  // Expires the overdue invitations of one order.
  function Lapsed(table: map<Id, Handover>, o: Id, now: Time): map<Id, Handover> {
    map h | h in table ::
      if table[h].order == o && table[h].status == HandoverPending && table[h].expiresAt <= now
      then table[h].(status := HandoverExpired) else table[h]
  }

  // The unique index on pending invitations of an order.
  predicate HasInvitation(table: map<Id, Handover>, o: Id) {
    exists h :: h in table && table[h].order == o && table[h].status == HandoverPending
  }

  lemma LapsedOf(db: Tables, o: Id, now: Time)
    requires o in db.orders
    ensures LapseInvitations(TripOf(db, o), now).handovers == HandoversOf(Lapsed(db.handovers, o, now), o)
    ensures db.handovers + HandoversOf(Lapsed(db.handovers, o, now), o) == Lapsed(db.handovers, o, now)
  {
  }

  lemma LapsedRead(db: Tables, o: Id, now: Time)
    requires o in db.orders
    ensures var lapsed := LapseInvitations(TripOf(db, o), now).handovers;
            HasInvitation(Lapsed(db.handovers, o, now), o) <==> exists h :: h in lapsed && lapsed[h].status == HandoverPending
  {
    hide Lapsed, LapseInvitations, TripOf;
    LapsedOf(db, o, now);
    var table := Lapsed(db.handovers, o, now);
    if h :| h in table && table[h].order == o && table[h].status == HandoverPending {
      assert h in HandoversOf(table, o) && HandoversOf(table, o)[h].status == HandoverPending;
    }
    if h :| h in HandoversOf(table, o) && HandoversOf(table, o)[h].status == HandoverPending { assert h in table; }
  }

  lemma LapsedPut(db: Tables, o: Id, now: Time, id: Id, item: Handover)
    requires o in db.orders
    ensures db.handovers + LapseInvitations(TripOf(db, o), now).handovers[id := item] == Lapsed(db.handovers, o, now)[id := item]
  {
    hide Lapsed, LapseInvitations, TripOf, HandoversOf;
    LapsedOf(db, o, now);
    var part := HandoversOf(Lapsed(db.handovers, o, now), o);
    assert db.handovers + part[id := item] == (db.handovers + part)[id := item];
  }

  lemma SaveInvited(db: Tables, o: Id, now: Time, id: Id, item: Handover)
    requires o in db.orders && db.orders[o].id == o
    ensures var lapsed := LapseInvitations(TripOf(db, o), now);
            Save(db, lapsed.(handovers := lapsed.handovers[id := item]), {})
            == db.(handovers := Lapsed(db.handovers, o, now)[id := item])
  {
    var lapsed := LapseInvitations(TripOf(db, o), now);
    var u := lapsed.(handovers := lapsed.handovers[id := item]);
    LapsedPut(db, o, now, id, item);
    RowsStay(db, o);
    hide Save, LapseInvitations, Lapsed;
    SameButHandovers(db, o, now);
    assert u == TripOf(db, o).(incidents := u.incidents, handovers := u.handovers);
    SaveRecords(db, o, u);
  }

  lemma SameButHandovers(db: Tables, o: Id, now: Time)
    requires o in db.orders
    ensures var lapsed := LapseInvitations(TripOf(db, o), now);
            lapsed == TripOf(db, o).(handovers := lapsed.handovers) && lapsed.incidents == IncidentsOf(db.incidents, o)
  {
  }

  lemma SaveHandover(db: Tables, o: Id, h: Id, item: Handover)
    requires o in db.orders && db.orders[o].id == o
    ensures Save(db, SetHandover(TripOf(db, o), h, item), {}) == db.(handovers := db.handovers[h := item])
  {
    var u := SetHandover(TripOf(db, o), h, item);
    RowsStay(db, o);
    PutHandover(db, o, h, item);
    hide Save;
    SaveRecords(db, o, u);
  }

  lemma ReadHandover(db: Tables, h: Id)
    requires Constrained(db) && h in db.handovers
    ensures var o := db.handovers[h].order;
            o in db.orders && db.orders[o].id == o && h in TripOf(db, o).handovers && TripOf(db, o).handovers[h] == db.handovers[h]
  {
  }

  // The released leg, the next leg, the order's driver and the completed handover.
  lemma SaveTakeOver(db: Tables, o: Id, h: Id, a: Id, now: Time, id: Id, next: Assignment, driver: Id, item: Handover, taken: bool)
    requires o in db.orders && db.orders[o].id == o && a in db.assignments && db.assignments[a].order == o
    requires id in db.assignments ==> taken
    ensures a in TripOf(db, o).assignments
    ensures var t := TripOf(db, o);
            var released := ReleasedRow(db.assignments[a], InTransitHandover, now);
            var freed := Put(t, a, released);
            && t.assignments[a] == db.assignments[a]
            && (Blocked(freed, id, taken) <==> taken || HasOpenAssignment(db.assignments[a := released], o))
            && (!taken ==>
                  Save(db, SetHandover(Put(freed, id, next).(order := t.order.(driver := Some(driver))), h, item), {a})
                  == db.(orders := db.orders[o := db.orders[o].(driver := Some(driver))],
                         assignments := db.assignments[a := released][id := next],
                         handovers := db.handovers[h := item], queue := Queued(db.queue, a, released)))
  {
    var t := TripOf(db, o);
    var released := ReleasedRow(db.assignments[a], InTransitHandover, now);
    AssignmentsPut(db.assignments, o, a, released);
    BlockedRead(db.assignments[a := released], Put(t, a, released), o, id, taken);
    PutHandover(db, o, h, item);
    hide Save, Blocked, HasOpenAssignment;
    if !taken {
      SaveReplacement(db, o, SetHandover(Put(Put(t, a, released), id, next).(order := t.order.(driver := Some(driver))), h, item),
                      a, released, id, next);
    }
  }

  lemma InvitationKeys(db: Tables, o: Id, now: Time, id: Id)
    requires o in db.orders
    ensures id in LapseInvitations(TripOf(db, o), now).handovers ==> id in db.handovers
    ensures id in TripOf(db, o).handovers ==> id in db.handovers
  {
  }

  // Foreign keys, as the targets of commands use them.
  lemma Targets(db: Tables)
    requires Constrained(db)
    ensures forall a :: a in db.assignments ==> OrderOfAssignment(db, a) == Some(db.assignments[a].order)
    ensures forall a :: a !in db.assignments ==> OrderOfAssignment(db, a).None?
    ensures forall i :: i in db.incidents ==> db.incidents[i].order in db.orders
    ensures forall h :: h in db.handovers ==> db.handovers[h].order in db.orders
  {
  }
}
