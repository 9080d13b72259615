// The database: one map per table, and the rows of one order read out of it and written back.
module Database {
  import opened Model
  import opened Trips

  datatype Tables = Tables(
    orders: map<Id, Order>,
    assignments: map<Id, Assignment>,
    operations: map<OpKey, Operation>,
    incidents: map<Id, Incident>,
    receipts: map<Id, Receipt>,          // order_id is unique
    handovers: map<Id, Handover>,
    history: map<Id, seq<StatusChange>>, // the log of each order, oldest first
    queue: map<Id, ReleaseJob>)          // dispatch_release_queue, by assignment

  const EMPTY := Tables(map[], map[], map[], map[], map[], map[], map[], map[])

  function LogOf(db: Tables, o: Id): seq<StatusChange> {
    if o in db.history then db.history[o] else []
  }

  function AssignmentsOf(table: map<Id, Assignment>, o: Id): map<Id, Assignment> {
    map a | a in table && table[a].order == o :: table[a]
  }

  function OperationsOf(table: map<OpKey, Operation>, o: Id): map<OpKey, Operation> {
    map k | k in table && k.order == o :: table[k]
  }

  function IncidentsOf(table: map<Id, Incident>, o: Id): map<Id, Incident> {
    map i | i in table && table[i].order == o :: table[i]
  }

  function HandoversOf(table: map<Id, Handover>, o: Id): map<Id, Handover> {
    map h | h in table && table[h].order == o :: table[h]
  }

  function TripOf(db: Tables, o: Id): Trip
    requires o in db.orders
  {
    Trip(db.orders[o], AssignmentsOf(db.assignments, o), OperationsOf(db.operations, o), IncidentsOf(db.incidents, o),
         if o in db.receipts then Some(db.receipts[o]) else None, HandoversOf(db.handovers, o), LogOf(db, o))
  }

  // enqueueDispatchAfterRelease
  function JobOf(row: Assignment): ReleaseJob { ReleaseJob(row.order, row.plannedFrom, row.plannedTo) }

  // A row already queued for the assignment is kept.
  function Enqueue(queue: map<Id, ReleaseJob>, assignments: map<Id, Assignment>, closed: set<Id>): map<Id, ReleaseJob> {
    (map a | a in closed && a in assignments :: JobOf(assignments[a])) + queue
  }

  function Save(db: Tables, t: Trip, closed: set<Id>): Tables {
    var o := t.order.id;
    Tables(db.orders[o := t.order],
           db.assignments + t.assignments,
           db.operations + t.operations,
           db.incidents + t.incidents,
           if t.receipt.Some? then db.receipts[o := t.receipt.value] else db.receipts,
           db.handovers + t.handovers,
           if t.history == LogOf(db, o) then db.history else db.history[o := t.history],
           Enqueue(db.queue, t.assignments, closed))
  }

  // Every row names an order that exists.
  ghost predicate Referential(db: Tables) {
    && (forall o :: o in db.orders ==> db.orders[o].id == o)
    && (forall a :: a in db.assignments ==> db.assignments[a].order in db.orders)
    && (forall k :: k in db.operations ==> k.order in db.orders)
    && (forall i :: i in db.incidents ==> db.incidents[i].order in db.orders)
    && (forall h :: h in db.handovers ==> db.handovers[h].order in db.orders)
    && db.receipts.Keys <= db.orders.Keys
    && db.history.Keys <= db.orders.Keys
  }

  // u holds the rows of t and otherwise only rows whose keys nobody uses.
  ghost predicate FreshIn(db: Tables, t: Trip, u: Trip) {
    && u.order.id == t.order.id
    && t.assignments.Keys <= u.assignments.Keys && t.operations.Keys <= u.operations.Keys
    && t.incidents.Keys <= u.incidents.Keys && t.handovers.Keys <= u.handovers.Keys
    && (t.receipt.Some? ==> u.receipt.Some?)
    && (forall a :: a in u.assignments ==>
          u.assignments[a].order == t.order.id && (a in t.assignments || a !in db.assignments))
    && (forall i :: i in u.incidents ==>
          u.incidents[i].order == t.order.id && (i in t.incidents || i !in db.incidents))
    && (forall h :: h in u.handovers ==>
          u.handovers[h].order == t.order.id && (h in t.handovers || h !in db.handovers))
    && (forall k :: k in u.operations ==> k.order == t.order.id)
  }

  lemma AssignmentsReadBack(whole: map<Id, Assignment>, part: map<Id, Assignment>, o: Id, p: Id)
    requires forall k :: k in part ==> part[k].order == o && (k in AssignmentsOf(whole, o) || k !in whole)
    requires AssignmentsOf(whole, o).Keys <= part.Keys
    ensures AssignmentsOf(whole + part, p) == if p == o then part else AssignmentsOf(whole, p)
  {
    if p == o {
      forall k | k in whole && whole[k].order == o ensures k in part { assert k in AssignmentsOf(whole, o); }
    }
  }

  lemma OperationsReadBack(whole: map<OpKey, Operation>, part: map<OpKey, Operation>, o: Id, p: Id)
    requires forall k :: k in part ==> k.order == o
    requires OperationsOf(whole, o).Keys <= part.Keys
    ensures OperationsOf(whole + part, p) == if p == o then part else OperationsOf(whole, p)
  {
    if p == o {
      forall k | k in whole && k.order == o ensures k in part { assert k in OperationsOf(whole, o); }
    }
  }

  lemma IncidentsReadBack(whole: map<Id, Incident>, part: map<Id, Incident>, o: Id, p: Id)
    requires forall k :: k in part ==> part[k].order == o && (k in IncidentsOf(whole, o) || k !in whole)
    requires IncidentsOf(whole, o).Keys <= part.Keys
    ensures IncidentsOf(whole + part, p) == if p == o then part else IncidentsOf(whole, p)
  {
    if p == o {
      forall k | k in whole && whole[k].order == o ensures k in part { assert k in IncidentsOf(whole, o); }
    }
  }

  lemma HandoversReadBack(whole: map<Id, Handover>, part: map<Id, Handover>, o: Id, p: Id)
    requires forall k :: k in part ==> part[k].order == o && (k in HandoversOf(whole, o) || k !in whole)
    requires HandoversOf(whole, o).Keys <= part.Keys
    ensures HandoversOf(whole + part, p) == if p == o then part else HandoversOf(whole, p)
  {
    if p == o {
      forall k | k in whole && whole[k].order == o ensures k in part { assert k in HandoversOf(whole, o); }
    }
  }

  // Writing one order back changes that order to what was written and no other.
  lemma SaveThenRead(db: Tables, u: Trip, closed: set<Id>, p: Id)
    requires Referential(db) && u.order.id in db.orders && FreshIn(db, TripOf(db, u.order.id), u)
    requires p in db.orders
    ensures TripOf(Save(db, u, closed), p) == if p == u.order.id then u else TripOf(db, p)
  {
    var o := u.order.id;
    SaveKeepsOthers(db, u, closed, p);
    AssignmentsReadBack(db.assignments, u.assignments, o, p);
    OperationsReadBack(db.operations, u.operations, o, p);
    IncidentsReadBack(db.incidents, u.incidents, o, p);
    HandoversReadBack(db.handovers, u.handovers, o, p);
    hide Enqueue, AssignmentsOf, OperationsOf, IncidentsOf, HandoversOf, LogOf;
  }

  lemma SaveKeepsOthers(db: Tables, u: Trip, closed: set<Id>, p: Id)
    requires Referential(db) && u.order.id in db.orders && FreshIn(db, TripOf(db, u.order.id), u) && p in db.orders
    ensures var after := Save(db, u, closed);
            && after.orders[p] == (if p == u.order.id then u.order else db.orders[p])
            && LogOf(after, p) == (if p == u.order.id then u.history else LogOf(db, p))
            && (if p == u.order.id then u.receipt == (if p in after.receipts then Some(after.receipts[p]) else None)
                else (p in after.receipts <==> p in db.receipts) && (p in db.receipts ==> after.receipts[p] == db.receipts[p]))
  {
    hide Enqueue, AssignmentsOf, OperationsOf, IncidentsOf, HandoversOf;
  }

  lemma SaveKeepsReferences(db: Tables, u: Trip, closed: set<Id>)
    requires Referential(db) && u.order.id in db.orders && FreshIn(db, TripOf(db, u.order.id), u)
    ensures Referential(Save(db, u, closed))
  {
  }
}
